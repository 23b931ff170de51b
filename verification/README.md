# Portfolio CMS core in Dafny

This project models the content-management core of a portfolio site: an Express/Mongoose
backend and a React admin area. It covers five parts of the system:

- **The content routes.** Four collections (projects, experiences, certificates, tech-stack
  items) each answer a public list, an admin list, a get by id, create, update and delete.
  Three sections shown once (about, hero, contact) each answer a public read, an admin read,
  an upsert `POST` and a `PATCH /publish` toggle. The store is a class per resource holding
  the documents as a sequence, with ids and creation times (`Store.Collection`,
  `Store.Singleton`). The routes are its methods, and their replies are values of a reply
  datatype (status, success, message, data).
- **The two schemas with logic.** The project and tech-stack schemas have required and
  trimmed paths, enumerations, the 0..100 level range and defaults (`ProjectSchema`,
  `TechStackSchema`). The other five schemas are validity predicates on the record datatypes
  (`Records`).
- **The account routes.** These are register, login and verify (`Auth`). Password hashing,
  password comparison and token signing are functions the model does not look into. A token
  is the record of its claims.
- **The route guards.** The public, signed-in and administrator guards of every route are in
  `Access`.
- **The admin forms.**
  - The collection editors (`ProjectForm`, `ExperienceForm`, `CertificateForm`,
    `TechStackForm`) load a stored document into text fields and turn the fields back into a
    request body. Lists become `", "`- or line-joined text and are parsed back by split, trim
    and drop-empty (`ListField`, built on the JavaScript string primitives in `Text`).
  - The section editors (`AboutForm`, `HeroForm`) edit lists and fields by pure next-state
    functions (`ListEdit`).

The main results are the following:

- **Round trips.** Opening a stored project, experience or certificate in its editor and
  saving it unchanged sends back exactly the stored document, under conditions each round trip
  names. For projects, the PUT route then leaves the store as it was (`Site.ResaveProject`).
  The tech-stack editor as written is the exception: a stored level of 0 comes back as 50
  (see Findings). Its round trip holds only with the corrected load. Under these sits the
  list-codec round trip `Parse(Join(xs)) == xs`.
- **List routes.** Each list is a sorted permutation of exactly the published (or all)
  documents, and its `count` equals the length of its `data`.
- **Store invariants.** Ids stay unique. With requests handled one at a time, no section
  ever gets a second document.
- **Account routes.** An unknown email and a wrong password cannot be told apart, and only a
  successful lookup followed by a matching password yields a token.

## Model

| member | source | states |
|---|---|---|
| `Text.Trim` | src/components/admin/AboutForm.tsx:93-96 | `trim` leaves no white space at either end, changes exactly the untrimmed strings, keeps only characters of the input, and yields "" exactly for all-space input. |
| `Text.TrimCutsEnds` | src/components/admin/AboutForm.tsx:93-96 | `trim` cuts exactly the white space at the two ends: the result is a slice of the input with only white space before it and after it. |
| `Text.JoinSplit` | src/components/admin/ExperienceForm.tsx:41-62 | Joining the pieces of `split(sep)` with `sep` gives back the text. |
| `Text.SplitJoin` | src/components/admin/ExperienceForm.tsx:41-62 | Splitting a join of separator-free pieces gives back the pieces. |
| `Text.Split` | src/components/admin/ProjectForm.tsx:65-66 | `split(sep)` always gives at least one piece, and no piece contains the separator. |
| `Text.Join` | src/components/admin/ProjectForm.tsx:47-48 | `join(d)`: the items with `d` between neighbours, and "" for the empty list. |
| `ListField.Parse` | src/components/admin/ProjectForm.tsx:65-66 | Every parsed item is non-empty, trimmed and free of the separator. |
| `ListField.ParseAt` | src/components/admin/ProjectForm.tsx:65 | Parsing keeps the order of the pieces: text split at a separator parses to the two halves' parses, concatenated. |
| `ListField.ParseBlank` | src/components/admin/ProjectForm.tsx:65 | Empty or all-white-space text parses to the empty list. |
| `ListField.ParseJoin` | src/components/admin/ProjectForm.tsx:47-65 | Items that are non-empty, trimmed and separator-free survive join-with-separator-and-spaces followed by the parse. |
| `ListField.ParseIdempotent` | src/components/admin/ProjectForm.tsx:47-65 | Parsing, joining and parsing again gives the first parse. |
| `ListField.TrimAll` | src/components/admin/ProjectForm.tsx:65-66 | `.map(t => t.trim())`: same length, and each piece is the trim of the piece at that place. |
| `ListField.DropEmpty` | src/components/admin/ProjectForm.tsx:65-66 | `.filter(Boolean)`: keeps exactly the non-empty strings, and never lengthens the list. |
| `ListEdit.Add` | src/components/admin/AboutForm.tsx:92-100 | Text in the box is appended trimmed and the box cleared. A blank box changes nothing. |
| `ListEdit.RemoveAt` | src/components/admin/AboutForm.tsx:102-107 | Exactly the item at the index goes and the rest keep their order. An out-of-range index changes nothing. |
| `ListEdit.RemoveAtCount` | src/components/admin/HeroForm.tsx:108-113 | Removal at a valid index shortens the list by one and removes exactly that element (multiset). |
| `ListEdit.AddThenRemoveLast` | src/components/admin/HeroForm.tsx:98-113 | Removing the item just added restores the list. |
| `ListEdit.AddKeepsDuplicates` | src/components/admin/AboutForm.tsx:96 | Adding an entry already present adds a second copy. |
| `Ordering.SortBy` | backend/src/routes/projectRoutes.ts:12 | The sort is a permutation of its input and is ordered by the key whenever the key is a total preorder. |
| `Ordering.StrLeTotal` | backend/src/routes/techStackRoutes.ts:12 | Any two categories compare in binary string order. |
| `Ordering.StrLeTrans` | backend/src/routes/techStackRoutes.ts:12 | Binary string order is transitive. |
| `Ordering.StrLeAntisym` | backend/src/routes/techStackRoutes.ts:12 | Two categories that each precede the other are equal. |
| `ProjectSchema.Make` | backend/src/models/Project.ts:4-56 | A body is accepted exactly when the trimmed title, description, category and period are non-empty, the status is in the enumeration and no technology is empty. The result is valid. Its title is the trimmed title. Every other path the body gives is stored as given, and every path it leaves out takes its default. |
| `ProjectSchema.Valid` | backend/src/models/Project.ts:4-56 | A storable project has a non-empty trimmed title, non-empty description, category and period, a status from the enumeration, and no empty technology. |
| `ProjectSchema.MakeComplete` | backend/src/models/Project.ts:4-53 | A complete body of a valid project yields exactly that project. |
| `TechStackSchema.Make` | backend/src/models/TechStack.ts:4-39 | A body is accepted exactly when the trimmed name is non-empty, the category is in the enumeration, 0 <= level <= 100, and icon and description are present and non-empty. The name is the trimmed name. Category, level, icon and description are stored as given, and order and flag as given or, when left out, as 0 and `true`. |
| `TechStackSchema.Valid` | backend/src/models/TechStack.ts:4-39 | A storable item has a non-empty trimmed name, a category from the enumeration, a level from 0 to 100, and a non-empty icon and description. |
| `TechStackSchema.Before` | backend/src/routes/techStackRoutes.ts:12 | The sort key `{ category: 1, order: 1 }`: category in binary string order, then order ascending. |
| `TechStackSchema.MakeComplete` | backend/src/models/TechStack.ts:4-36 | A complete body of a valid item yields exactly that item. |
| `TechStackSchema.BeforeIsTotalPreorder` | backend/src/models/TechStack.ts:41 | The (category, order) key of the index and of both list routes is a total preorder. |
| `Records.CastExperience` | backend/src/models/Experience.ts:5-14 | Company and position are the trims of the given ones, and every other path is kept. A valid experience is left unchanged. |
| `Records.CastCertificate` | backend/src/models/Certificate.ts:5-9 | The title is the trim of the given one, and every other path is kept. A valid certificate is left unchanged. |
| `Records.ValidExperience` | backend/src/models/Experience.ts:4-58 | A storable experience has a non-empty trimmed company and position, non-empty period, location and description, and a contact whose four paths are non-empty. |
| `Records.ValidCertificate` | backend/src/models/Certificate.ts:4-52 | A storable certificate has a non-empty trimmed title and non-empty issuer, period, description and category. |
| `Records.ValidAbout` | backend/src/models/About.ts:19-63 | A storable about section has a non-empty bio and location, no empty skill, and every achievement complete. |
| `Records.ValidHero` | backend/src/models/Hero.ts:20-68 | A storable hero section has a non-empty name, subtitle, profile image and CV link, no empty tagline, and four non-empty social links. |
| `Records.ValidContactInfo` | backend/src/models/Contact.ts:19-63 | A storable contact section has a non-empty location, email, phone and portfolio, and four non-empty social links. |
| `ContentOrder.OrderThenNewestLaws` | backend/src/routes/projectRoutes.ts:12 | The (order ascending, createdAt descending) key is total and transitive. |
| `ContentOrder.ProjectBefore` | backend/src/routes/projectRoutes.ts:12 | The project sort `{ order: 1, createdAt: -1 }`: order ascending, then the newer document first. |
| `ContentOrder.ExperienceBefore` | backend/src/routes/experienceRoutes.ts:12 | The same key for experiences. |
| `ContentOrder.CertificateBefore` | backend/src/routes/certificateRoutes.ts:12 | The same key for certificates. |
| `ContentOrder.ContentOrdersArePreorders` | backend/src/routes/certificateRoutes.ts:12 | The project, experience and certificate sort keys are total preorders. |
| `ContentOrder.SortedMeansOrderThenNewest` | backend/src/routes/projectRoutes.ts:12 | In a sorted project list, earlier means a smaller order, or the same order and a newer document. |
| `Store.Published` | backend/src/routes/projectRoutes.ts:11 | Exactly the documents whose publish flag is set. |
| `Store.IndexOf` | backend/src/routes/projectRoutes.ts:51 | The position of the document with the id, or none exactly when no document has it. |
| `Store.IndexOfUnique` | backend/src/routes/projectRoutes.ts:97 | With unique ids, the lookup of a document's id finds that document's place. |
| `Store.Without` | backend/src/routes/projectRoutes.ts:128 | Exactly the documents with another id. |
| `Store.Failure` | backend/src/routes/projectRoutes.ts:85-91 | The catch of a route: status 500, no data. |
| `Store.NotFound` | backend/src/routes/projectRoutes.ts:53-59 | Status 404, no data. |
| `Store.Collection.ListPublished` | backend/src/routes/projectRoutes.ts:9-26 | 200. Every published document appears exactly once, none other appears, the list is sorted by the key, and `count` is the length of `data`. |
| `Store.Collection.ListAll` | backend/src/routes/projectRoutes.ts:29-46 | 200. All documents appear exactly once in key order, and `count` is the length of `data`. |
| `Store.Collection.Get` | backend/src/routes/certificateRoutes.ts:49-72 | With no publish filter, the document with the id is returned. An absent id gives 404 and a malformed id 500. |
| `Store.Collection.Create` | backend/src/routes/experienceRoutes.ts:75-92 | A valid body is appended under a fresh id with the given creation time and answered with 201. Otherwise the reply is 500 and nothing changes. Ids stay unique. |
| `Store.Collection.Update` | backend/src/routes/certificateRoutes.ts:95-123 | The document keeps its id, creation time and place, takes the body's fields and flag, and is returned. An absent id gives 404 and an invalid body or malformed id 500, with no change. |
| `Store.Collection.Delete` | backend/src/routes/techStackRoutes.ts:126-149 | Exactly the document with the id is removed. An absent id gives 404 with no change. |
| `Store.WithoutKeepsUnique` | backend/src/routes/projectRoutes.ts:128 | Deletion keeps ids unique. |
| `Store.FindAfterCreate` | backend/src/routes/projectRoutes.ts:77-84 | A created document is found under its new id, at the end. |
| `Store.FindAfterDelete` | backend/src/routes/projectRoutes.ts:128-136 | After a delete no document has that id. |
| `Store.FindAfterUpdate` | backend/src/routes/projectRoutes.ts:97-101 | An update leaves every id where it was. |
| `Store.PublishedSubset` | backend/src/routes/projectRoutes.ts:11-31 | The public list is contained in the admin list. |
| `Store.Singleton.PublicGet` | backend/src/routes/aboutRoutes.ts:8-15 | A document is returned exactly when a published one exists, and it is published. |
| `Store.Singleton.AdminGet` | backend/src/routes/heroRoutes.ts:17-25 | The stored document is returned whatever its flag, or null when there is none. |
| `Store.Singleton.Save` | backend/src/routes/contactRoutes.ts:27-46 | An existing document is replaced in place (200) or one is created (201). An invalid body gives 400 with no change. With requests handled one at a time, there is never more than one document. |
| `Store.Singleton.TogglePublish` | backend/src/routes/aboutRoutes.ts:48-63 | With no document the reply is 404. Otherwise the stored flag is negated and the document returned. |
| `Store.Flip` | backend/src/routes/heroRoutes.ts:56 | The flag is negated and id, creation time and fields are kept. |
| `Store.FlipTwice` | backend/src/routes/contactRoutes.ts:56 | Toggling twice restores the document. |
| `Store.ToggleVisibility` | backend/src/routes/aboutRoutes.ts:10-56 | After a toggle, the public read sees the section exactly when it did not before. |
| `Auth.View` | backend/src/routes/authRoutes.ts:36-41 | The user view carries id, username, email and role, and no password. |
| `Auth.TokenFor` | backend/src/routes/authRoutes.ts:27-31 | The claims are exactly the account's id and role, with a seven-day lifetime. |
| `Auth.FindOne` | backend/src/routes/authRoutes.ts:58 | An account the query matches: by email (login, line 58), by id (verify, line 105) or by email or username (register, line 15). It yields none exactly when no account matches. |
| `Auth.Login` | backend/src/routes/authRoutes.ts:54-100 | An unknown email and a wrong password both give the same 401. A token is produced exactly when the account is found and the password matches, and success is 200 with that account's token and view. A store error gives 500. |
| `Auth.Verify` | backend/src/routes/authRoutes.ts:103-116 | 200 with the view of the account the token names, without its password, or null when the account is gone. A store error gives 500. |
| `Auth.UserStore.Register` | backend/src/routes/authRoutes.ts:10-51 | A clash on email or username gives 400 and changes nothing. Otherwise the account is appended with role `User` and the hashed password, and 201 carries its token and view. Emails, usernames and ids stay unique. |
| `Auth.LoginFailuresAlike` | backend/src/routes/authRoutes.ts:58-74 | The login reply for an unknown email equals the reply for a known email with a wrong password. |
| `Auth.FindUnique` | backend/src/routes/authRoutes.ts:58 | With unique emails, the lookup by an account's email finds that account. |
| `Auth.LoginAfterRegister` | backend/src/routes/authRoutes.ts:24-92 | A just-registered account logs in with its password and gets a token for its id with role `User`. |
| `Access.CollectionGuard` | backend/src/routes/projectRoutes.ts:9-126 | Only the public list and the get by id are open. Every other collection route needs a signed-in administrator. |
| `Access.SectionGuard` | backend/src/routes/aboutRoutes.ts:8-49 | Only the public read is open. The admin read, save and toggle need a signed-in caller, and none of them checks for an administrator. |
| `Access.AccountGuard` | backend/src/routes/authRoutes.ts:10-103 | Register and login are open. Verify needs a signed-in caller. |
| `Access.GuardsNest` | backend/src/routes/projectRoutes.ts:29 | An administrator passes every guard. A caller without a token passes only open routes. |
| `Access.NonAdminReach` | backend/src/routes/heroRoutes.ts:18-49 | A signed-in non-administrator can read, save and toggle a section, but reaches no collection route beyond the open ones. |
| `Access.AnonymousReach` | backend/src/routes/contactRoutes.ts:8-49 | A caller without a token reaches exactly the open routes. |
| `FormCommon.OrText` | src/components/admin/ProjectForm.tsx:43-52 | `x \|\| d`: a missing or empty text becomes the default. |
| `FormCommon.OrNumber` | src/components/admin/ProjectForm.tsx:53 | `x \|\| d`: a missing number or 0 becomes the default. |
| `Wrappers.GetOr` | src/components/admin/ProjectForm.tsx:54 | `x ?? d`: only a missing value becomes the default. The schemas fill in defaults for missing paths the same way. |
| `FormCommon.EmptyToNull` | src/components/admin/ProjectForm.tsx:67-68 | Empty text is sent as null. Other text is sent unchanged. |
| `FormCommon.EmptyToNullThenLoad` | src/components/admin/CertificateForm.tsx:37-59 | Sending `s \|\| null` and loading `\|\| ''` gives back `s`. |
| `FormCommon.LoadThenEmptyToNull` | src/components/admin/CertificateForm.tsx:37-59 | Loading `\|\| ''` and sending `\|\| null` gives back a stored value that is null or non-empty. |
| `FormCommon.NumberEntry` | src/components/admin/ProjectForm.tsx:298 | A non-numeric entry sets 0. A number is kept. |
| `FormCommon.SubmitRequest` | src/components/admin/ProjectForm.tsx:76-94 | Without a token (missing or empty) no request is sent; otherwise the request carries it. Editing sends PUT to the document's URL, otherwise POST to the collection's URL. |
| `ProjectForm.ListText` | src/components/admin/ProjectForm.tsx:47-48 | A missing or empty list loads as "". |
| `ProjectForm.Load` | src/components/admin/ProjectForm.tsx:42-55 | Each text path loads as itself when present and non-empty, and otherwise as '' (status and gradient as their defaults). The order loads as itself unless missing or 0, which load as 0. Each list loads as its `", "` join, or '' when missing. The flag loads as stored, `false` included, and as `true` when missing. |
| `ProjectForm.Payload` | src/components/admin/ProjectForm.tsx:63-69 | Each list is the parse of its text: non-empty, trimmed, comma-free items, and [] for blank text. An empty URL is sent as null and other URLs unchanged. Title, description, category, period, status, gradient, order and flag are sent as they stand. |
| `ProjectForm.ListRoundTrip` | src/components/admin/ProjectForm.tsx:47-65 | A listable list survives its `", "` text. |
| `ProjectForm.EditRoundTrip` | src/components/admin/ProjectForm.tsx:42-69 | A stored project opened and saved unchanged sends back its own body, and the schema rebuilds exactly the stored project. This needs listable lists, a non-empty gradient, and URLs that are null or non-empty. |
| `ExperienceForm.Load` | src/components/admin/ExperienceForm.tsx:35-48 | Each text path, and each of the four contact paths, loads as itself when present and non-empty, and otherwise as ''. A missing contact gives four empty fields. Achievements load as their line join, or '' when missing. The order loads as itself unless missing or 0, and the flag as stored or `true` when missing. |
| `ExperienceForm.Nest` | src/components/admin/ExperienceForm.tsx:63-68 | The contact is made of exactly the four flat fields. |
| `ExperienceForm.Payload` | src/components/admin/ExperienceForm.tsx:56-71 | Achievements are the one-per-line parse of the text: non-empty, trimmed items. The contact is nested from the four fields. Company, position, period, location, description, order and flag are sent as they stand. |
| `ExperienceForm.FlattenThenNest` | src/components/admin/ExperienceForm.tsx:42-68 | Flattening a complete contact on load and nesting it on submit gives it back. |
| `ExperienceForm.AchievementsRoundTrip` | src/components/admin/ExperienceForm.tsx:41-62 | One-line, trimmed, non-empty achievements survive `join('\n')` followed by the parse. |
| `ExperienceForm.EditRoundTrip` | src/components/admin/ExperienceForm.tsx:35-71 | A valid stored experience with one-line achievements, opened and saved unchanged, is sent back exactly, and the schema's trim leaves it as stored. |
| `CertificateForm.Load` | src/components/admin/CertificateForm.tsx:35-47 | Every text path keeps a present non-empty value and otherwise loads as '', the gradient as its default. A missing or zero order loads as 0. The publish flag keeps a stored value (so `false` stays `false`) and a missing one loads as `true`. |
| `CertificateForm.Payload` | src/components/admin/CertificateForm.tsx:55-60 | An empty type, event or credential URL is sent as null. Each non-empty one and every other field is sent unchanged. |
| `CertificateForm.EditRoundTrip` | src/components/admin/CertificateForm.tsx:35-60 | A valid stored certificate, opened and saved unchanged, is sent back exactly. This needs a non-empty gradient and optional texts that are null or non-empty. |
| `TechStackForm.Load` | src/components/admin/TechStackForm.tsx:30-38 | As written, a missing level or a level of 0 loads as 50, and any other level is kept. Name, icon and description keep a present non-empty value and otherwise load as '', the category as "languages". A missing or zero order loads as 0. The publish flag keeps a stored value and a missing one loads as `true`. |
| `TechStackForm.LoadKeepingLevel` | src/components/admin/TechStackForm.tsx:33 | With `??`, only a missing level loads as 50, and everything else loads as before. |
| `TechStackForm.EnterLevel` | src/components/admin/TechStackForm.tsx:174 | A non-numeric level entry sets 0, a number is kept, and nothing else changes. |
| `TechStackForm.Payload` | src/components/admin/TechStackForm.tsx:69 | The body is the form state verbatim. |
| `TechStackForm.ZeroLevelBecomesFifty` | src/components/admin/TechStackForm.tsx:33 | Every valid stored item of level 0, opened and saved unchanged, is stored back with level 50. |
| `TechStackForm.ZeroLevelExample` | src/components/admin/TechStackForm.tsx:33 | A concrete valid item that the as-written load changes. |
| `TechStackForm.EditRoundTrip` | src/components/admin/TechStackForm.tsx:30-69 | With the corrected load, every valid stored item opened and saved unchanged is stored back exactly. |
| `AboutForm.SetField` | src/components/admin/AboutForm.tsx:122-129 | One field of an achievement is set and the other four are kept. |
| `AboutForm.AddSkill` | src/components/admin/AboutForm.tsx:92-100 | A non-blank entry is appended trimmed, without deduplication, and the box cleared. A blank entry changes nothing. Bio, location, achievements and flag are kept. |
| `AboutForm.RemoveSkill` | src/components/admin/AboutForm.tsx:102-107 | Exactly the skill at the index goes, and an out-of-range index changes nothing. The rest is kept. |
| `AboutForm.AddAchievement` | src/components/admin/AboutForm.tsx:109-120 | One all-empty achievement is appended and the rest is kept. |
| `AboutForm.UpdateAchievement` | src/components/admin/AboutForm.tsx:122-129 | Only the chosen field of the chosen achievement changes. Length, other achievements and other fields are kept. |
| `AboutForm.RemoveAchievement` | src/components/admin/AboutForm.tsx:131-136 | Exactly the achievement at the index goes, and an out-of-range index changes nothing. |
| `AboutForm.AddThenRemoveAchievement` | src/components/admin/AboutForm.tsx:109-136 | Adding an achievement and removing it again restores the editor. |
| `AboutForm.UpdateWithSameValue` | src/components/admin/AboutForm.tsx:122-129 | Setting a field to its current value changes nothing. |
| `AboutForm.ApplyFetched` | src/components/admin/AboutForm.tsx:51-53 | The fetched section replaces the form only when the reply succeeded and carries data. |
| `HeroForm.AddTagline` | src/components/admin/HeroForm.tsx:98-106 | A non-blank entry is appended trimmed and the box cleared. A blank entry changes nothing, and every other part of the section is kept. |
| `HeroForm.RemoveTagline` | src/components/admin/HeroForm.tsx:108-113 | Exactly the tagline at the index goes, and the rest keep their order. An out-of-range index changes nothing. |
| `HeroForm.SetSocialLink` | src/components/admin/HeroForm.tsx:191-227 | Only the chosen link changes. The other three links and the rest of the section are kept. |
| `HeroForm.SocialLinkEditsCommute` | src/components/admin/HeroForm.tsx:191-227 | Edits of two different links can be made in either order. |
| `HeroForm.AddThenRemoveTagline` | src/components/admin/HeroForm.tsx:98-113 | Adding a tagline and removing it again restores the section. |
| `HeroForm.ApplyFetched` | src/components/admin/HeroForm.tsx:57-59 | The fetched section replaces the form only when the reply succeeded and carries data. |
| `Site.OpenProjects` | backend/src/routes/projectRoutes.ts:11-12 | The project store starts empty with the project schema and the order-then-newest key. |
| `Site.OpenExperiences` | backend/src/routes/experienceRoutes.ts:11-12 | The experience store starts empty with the experience schema and the order-then-newest key. |
| `Site.OpenCertificates` | backend/src/routes/certificateRoutes.ts:11-12 | The certificate store starts empty with the certificate schema and the order-then-newest key. |
| `Site.OpenAbout` | backend/src/routes/aboutRoutes.ts:8-15 | The about store starts empty with the about schema. |
| `Site.OpenHero` | backend/src/routes/heroRoutes.ts:8-15 | The hero store starts empty with the hero schema. |
| `Site.OpenContact` | backend/src/routes/contactRoutes.ts:8-15 | The contact store starts empty with the contact schema. |
| `Site.OpenTechStack` | backend/src/routes/techStackRoutes.ts:11-12 | The tech-stack store starts empty with its schema and the (category, order) key. |
| `Site.CreateProject` | backend/src/routes/projectRoutes.ts:75-92 | The body goes through the project schema, and the result is stored (201) or refused (500). |
| `Site.CreateTechItem` | backend/src/routes/techStackRoutes.ts:75-92 | The body goes through the tech-stack schema, and the result is stored (201) or refused (500). |
| `Site.CreateExperience` | backend/src/routes/experienceRoutes.ts:75-92 | The trimmed body is stored if valid (201), and refused otherwise (500). |
| `Site.CreateCertificate` | backend/src/routes/certificateRoutes.ts:75-92 | The trimmed body is stored if valid (201), and refused otherwise (500). |
| `Site.UpdateProject` | backend/src/routes/projectRoutes.ts:95-123 | The PUT body goes through the project schema (trim and validators). A malformed id or a rejected body gives 500 and an unknown id 404, with no change. Otherwise the document takes the result's paths in place, keeping its id and creation time (200). |
| `Site.UpdateTechItem` | backend/src/routes/techStackRoutes.ts:95-123 | The same, through the tech-stack schema. |
| `Site.UpdateExperience` | backend/src/routes/experienceRoutes.ts:95-123 | The same, with company and position trimmed before validation. |
| `Site.UpdateCertificate` | backend/src/routes/certificateRoutes.ts:95-123 | The same, with the title trimmed before validation. |
| `Site.ResaveProject` | backend/src/routes/projectRoutes.ts:95-123 | A PUT of a body that the schema rebuilds into the stored project (by `ProjectForm.EditRoundTrip`, the editor's unchanged save) answers 200 and leaves the store exactly as it was. |

## Left out

- I/O and transport are not modelled: HTTP, `fetch`, Express routing, CORS, the database
  connection, `localStorage`, toasts, navigation, reloads and timers. Replies are values.
  Form submission is the body and the request it would send.
- The `authenticateToken` and `isAdmin` middlewares and the user model are not part of this
  model. A caller is modelled by whether the two middlewares pass it. A rejected caller gets
  no modelled reply.
- Password hashing (bcrypt), `comparePassword` and JWT signing are functions given as
  parameters (`hash`, `matches`). A token is its claims and its lifetime, with no signature
  and no encoding.
- `Store.Collection.Update`: does not model partial update bodies. The body's fields and
  flag replace the document's, which is what the admin forms send (every path).
- `Site.UpdateProject`, `Site.UpdateTechItem`, `Site.UpdateExperience` and
  `Site.UpdateCertificate`: a PUT body is cast as on create. For projects and tech-stack
  items, whose bodies may leave paths out, such a path therefore takes its schema default,
  and a missing required path is refused; experience and certificate bodies are complete
  records. In the source,
  `findByIdAndUpdate` keeps the stored value of such a path and runs validators only on the
  paths present. The admin forms always send every path, where the two agree. The update also
  runs the `trim` setters, as Mongoose does from version 5 on; the version is not pinned in
  this repository.
- `Store.Singleton.Save`: does not model partial update bodies, for the same reason as
  `Update`.
- Requests are handled one at a time; concurrency is not modelled. In the source, two
  overlapping first saves of a section can both find no document and both create one,
  since the section schemas have no unique index. The one-document property of
  `Store.Singleton.Save` therefore holds only for requests that do not overlap.
- Store failures other than a malformed id, a cast error and a validation error are not
  modelled: the database going away is not. The list routes and the singleton reads
  therefore have no 500 branch. `Auth.Login`, `Auth.Verify` and `Auth.UserStore.Register`
  take that failure as a flag, because the user model's own validation is not visible.
- `Store.Singleton.TogglePublish`: does not model the 500 of a failing save, because the
  store holds only valid documents and the database itself is not modelled.
- Object ids are the counter `nextId`. Creation times are the `now` parameter. `updatedAt`
  timestamps, `__v` and the other Mongoose internals are not modelled.
- The database's order between documents with equal sort keys is unspecified. The list
  routes promise only a permutation sorted by the key, and a stable insertion sort fixes
  one order.
- The list routes' other failure messages are not modelled, because their only cause is a
  database error.
- The success replies of `GET /:id`, of the section routes and of `Auth.Verify` carry no
  message. The model writes "" there.
- The `error: error.message` field that several 500 replies carry (the collection routes'
  catches, `Auth.Login`, `Auth.UserStore.Register`) is not modelled: it is the database's or
  the library's own text.
- `Auth.Verify`: the returned user keeps its timestamps in the source. The view here has id,
  username, email and role only.
- `parseInt` is modelled as a given partial function (`None` for NaN). How JavaScript parses
  numbers is not modelled.
- Number paths are unbounded integers, not floating-point numbers.
- The contact form, dashboard, login page, public sections, seed scripts and server startup
  are not part of this model.

## Findings

| source | as written | input that shows it | evidently intended | confidence | as-written member | corrected member |
|---|---|---|---|---|---|---|
| src/components/admin/TechStackForm.tsx:33 | `level: techItem.level \|\| 50` treats a stored level of 0, which the schema admits (min 0), like a missing one | the item `Go` / `languages` / level 0: opened in the editor and saved unchanged, it is stored back with level 50 | keep the stored level and default only a missing one (`techItem.level ?? 50`), so that an unchanged save stores the item as it was | not executed; follows from the `\|\|` semantics of the line | `TechStackForm.ZeroLevelBecomesFifty` | `TechStackForm.EditRoundTrip` |
