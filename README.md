# Complaint tracker: authorisation and mutation policy in Dafny

This project models the decision logic of a complaint-tracking web application.
Users file complaints and edit their own. Administrators see every complaint and
move it between the statuses Pending, In Progress and Resolved. The model covers:

- the backend complaint handlers (list, read, create, update, update status,
  delete) over the complaint collection, with the schema constraints that a
  save checks;
- the backend account handlers (sign-up, login with get-or-create of the local
  account, logout, profile) over an email-to-account map;
- the client's auth reducer and the dispatch sequences of its `login`,
  `signup`, `logout` and session checks;
- the client's route guard;
- the admin dashboard's status patch of its local list, and its status colours.

Modules, one per source file:

| module | file | models |
|---|---|---|
| `Js` | js.dfy | JavaScript truthiness, `a || b`, `String.prototype.trim` |
| `Api` | api.dfy | the authenticated caller `{id, role}`, role names, the reply with its HTTP code |
| `ComplaintSchema` | complaint_schema.dfy | backend/models/Complaint.js |
| `ComplaintController` | complaint_controller.dfy | backend/controllers/complaintController.js |
| `AuthController` | auth_controller.dfy | backend/controllers/authController.js |
| `AuthContext` | auth_context.dfy | frontend/src/context/AuthContext.js |
| `ProtectedRoute` | protected_route.dfy | frontend/src/components/ProtectedRoute.js |
| `AdminDashboard` | admin_dashboard.dfy | frontend/src/pages/AdminDashboard.js (status patch, colours) |

How the model is built:

- The complaint collection is a sequence of saved documents in insertion order,
  with distinct ids. `ComplaintStore` holds it and has one method per handler.
- Each state-changing handler has a pure specification function
  (`CreateEffect`, `UpdateEffect`, `UpdateStatusEffect`, `DeleteEffect`). It
  gives the reply and the new collection. The method's postcondition equates its
  reply and new state with that function. The lemmas beside it prove the policy:
  check order, nothing else changes, invariant preservation, idempotence.
- `AccountStore` does the same for the account map.
- On the client, `AuthProvider` holds the reducer state and the stored token.
  A ghost log records every dispatched action. Each of `Login`, `Signup` and
  `Logout` is proved to dispatch exactly the sequence `LoginActions`,
  `SignupActions` or `LogoutActions`. Folding that sequence through the reducer
  (`Run`) gives its final state, and lemmas state what that state is.
- Clock time, the identity provider's answers and the backend's answers are
  inputs (`now`, `ProviderAnswer`, `BackendLogin`, `ProfileAnswer`, `StatusAnswer`).

Quirks kept as the code has them:

- Authorisation failures answer 401, not 403.
- Existence is checked before ownership: 404 comes before 401 in read, update
  and delete.
- The status route checks the status value first. An invalid value gets 400
  even for an id that does not exist. Then comes 404, then 401.
- Partial updates follow JavaScript truthiness (`body.x || doc.x`). An empty
  string keeps the old value.
- The `trim` setters run on every assignment. So a whitespace-only title
  passes the handler's truthiness check, is trimmed to nothing and fails
  `required`. A category outside the enum is only caught by validation. Both
  answer 500 with nothing stored.
- Mongoose runs validators before the schema's pre-save hook. A failed save
  therefore stores nothing and leaves `updatedAt` alone. A successful save sets
  `updatedAt` to `now`.

Where the intended behaviour and the code disagree:

- An out-of-enum category is meant to be an invalid-argument error (a 4xx).
  The code answers 500, because only schema validation catches it, and the
  model follows the code.
- A new complaint is meant to start as Pending. The schema as written leaves
  its status unset. This model follows the intended default (`NewDocument`,
  used by `CreateEffect`). The as-written behaviour is modelled separately
  (`NewDocumentAsWritten`, `StatusDefaultNotApplied`); see Findings.

## Model

| member | source | states |
|---|---|---|
| `Js.Or` | backend/controllers/complaintController.js:104-112 | `v \|\| fallback`: a truthy string wins, an absent or empty one yields the fallback |
| `Js.Trim` | backend/models/Complaint.js:4-14 | the trimmed string is a slice `s[i..j]` of the input, with only white space before `i` and after `j`, and has no outer white space; it is empty exactly when the input is all white space |
| `Js.TrimStartSuffix` | backend/models/Complaint.js:7 | trimming the front leaves a suffix that starts with a non-space, and drops only white space |
| `Js.TrimEndPrefix` | backend/models/Complaint.js:7 | trimming the end leaves a prefix that ends with a non-space, and drops only white space |
| `Js.TrimIdempotent` | backend/models/Complaint.js:7 | trimming twice equals trimming once, so a stored trimmed value survives re-assignment |
| `ComplaintSchema.Valid` | backend/models/Complaint.js:4-35 | a document passes the schema's validators iff title and description are non-empty, the title has at most 100 characters, category is one of the five, status is unset or one of the three, and the owner is set |
| `ComplaintSchema.NewDocument` | backend/models/Complaint.js:3-43 | a new document has the given id, trimmed title and description, the caller as owner, createdAt = updatedAt = now and status Pending; it is valid iff the trimmed title is non-empty and at most 100 characters, the trimmed description is non-empty and the category is one of the five |
| `ComplaintSchema.NewDocumentAsWritten` | backend/models/Complaint.js:23-30 | with the schema as written, a new document has no status |
| `ComplaintSchema.StatusDefaultNotApplied` | backend/models/Complaint.js:23-30 | such a document passes validation while its status is not Pending (status is not required) |
| `ComplaintSchema.BlankDescriptionInvalid` | backend/models/Complaint.js:10-14 | a whitespace-only description can never be saved |
| `ComplaintSchema.Touch` | backend/models/Complaint.js:47-50 | the pre-save hook sets updatedAt to now and changes nothing else |
| `ComplaintSchema.TouchKeepsValidity` | backend/models/Complaint.js:47-50 | the hook does not affect validity |
| `ComplaintSchema.Save` | backend/models/Complaint.js:3-50 | a save succeeds iff the document is valid; then the stored document is the touched one |
| `ComplaintController.Find` | backend/controllers/complaintController.js:36 | findById returns a stored document with that id, and none iff no stored document has it |
| `ComplaintController.FindMember` | backend/controllers/complaintController.js:36 | with distinct ids, findById of a stored document's id returns that document |
| `ComplaintController.Replace` | backend/controllers/complaintController.js:115 | saving an existing document keeps the length, puts the new document at every position holding its id, and leaves every other position as it was |
| `ComplaintController.FindAfterReplace` | backend/controllers/complaintController.js:115 | after a save, findById sees the new document under its id and every other id as before |
| `ComplaintController.ReplaceTwice` | backend/controllers/complaintController.js:115 | two saves under one id equal the later save |
| `ComplaintController.ReplaceKeepsInvariant` | backend/controllers/complaintController.js:115 | saving a valid document keeps the collection well formed |
| `ComplaintController.Remove` | backend/controllers/complaintController.js:176 | deleteOne keeps exactly the documents with other ids, with ids still distinct |
| `ComplaintController.FindAfterRemove` | backend/controllers/complaintController.js:176 | after deleteOne, findById misses that id and sees every other id as before |
| `ComplaintController.MayAccess` | backend/controllers/complaintController.js:43-45 | the handlers' gate: the caller owns the document or is an admin |
| `ComplaintController.OwnedBy` | backend/controllers/complaintController.js:19 | `find({owner})` keeps exactly the documents the user owns, each as many times as the collection holds it |
| `ComplaintController.Insert` | backend/controllers/complaintController.js:16 | inserting into a newest-first list keeps it newest first and adds exactly that document; the new head is that document or the old head |
| `ComplaintController.ConsNewestFirst` | backend/controllers/complaintController.js:16 | a document no older than the head of a newest-first list can go in front of it |
| `ComplaintController.SortNewestFirst` | backend/controllers/complaintController.js:16 | `.sort({createdAt: -1})` yields a newest-first permutation of its input |
| `ComplaintController.CreateEffect` | backend/controllers/complaintController.js:57-81 | a falsy title, description or category gives 400 and stores nothing; the request succeeds iff all three are truthy and the new document passes validation, and otherwise answers 500; any failure stores nothing; success gives 201, appends one document owned by the caller (whatever the body says) with status Pending and trimmed fields, keeps the collection well formed, and findById then returns it |
| `ComplaintController.CreateRejectedOnlyBySchema` | backend/controllers/complaintController.js:62-80 | a present but whitespace-only title, or a category outside the enum, gives 500 with nothing stored |
| `ComplaintController.Patched` | backend/controllers/complaintController.js:101-113 | the patch never changes id, owner, createdAt or updatedAt, and leaves title and description trimmed |
| `ComplaintController.PatchedFields` | backend/controllers/complaintController.js:103-113 | each field takes the request's value only when it is truthy and otherwise keeps the stored one; status changes only for an admin |
| `ComplaintController.PatchedIdempotent` | backend/controllers/complaintController.js:103-113 | applying the same patch twice equals applying it once |
| `ComplaintController.UpdateEffect` | backend/controllers/complaintController.js:86-123 | a missing id gives 404 before ownership is looked at; a non-admin non-owner gets 401; the update succeeds iff the id exists, the caller owns the document or is an admin, and the patched document passes validation, and otherwise answers 500; any failure leaves the collection unchanged; success answers 200 with the patched and touched document, which replaces the stored one |
| `ComplaintController.UpdateChangesOnlyTarget` | backend/controllers/complaintController.js:90-118 | a successful update keeps the collection well formed, keeps owner and createdAt, sets updatedAt, never changes a non-admin's complaint status, and leaves every other id untouched |
| `ComplaintController.UpdateTwice` | backend/controllers/complaintController.js:86-123 | sending the same update twice gives the same reply and collection as once, except for the later updatedAt |
| `ComplaintController.UpdateStatusEffect` | backend/controllers/complaintController.js:128-158 | a status outside {Pending, In Progress, Resolved} gives 400 even for a missing id; then a missing id gives 404; then a non-admin gets 401; the update succeeds iff the status is valid, the id exists, the caller is an admin and the changed document passes validation; success changes only status and updatedAt |
| `ComplaintController.UpdateStatusSucceeds` | backend/controllers/complaintController.js:137-153 | on a well-formed collection a status update never answers 500, succeeds iff the status is valid, the id exists and the caller is an admin, keeps the collection well formed, and leaves every other id untouched |
| `ComplaintController.DeleteEffect` | backend/controllers/complaintController.js:163-183 | a missing id gives 404 before ownership; success happens iff the caller owns the document or is an admin, and removes it; failures change nothing |
| `ComplaintController.DeleteRemovesExactlyOne` | backend/controllers/complaintController.js:165-178 | a delete keeps the collection well formed; afterwards the id is gone and every other id is as before |
| `ComplaintController.ComplaintStore.GetComplaints` | backend/controllers/complaintController.js:8-29 | an admin gets a permutation of the whole collection, anyone else a permutation of exactly the documents they own; either list is newest first |
| `ComplaintController.ComplaintStore.GetComplaint` | backend/controllers/complaintController.js:34-52 | 404 for a missing id before ownership; 401 for a non-admin non-owner; otherwise 200 with the document findById returns |
| `ComplaintController.ComplaintStore.SaveDocument` | backend/controllers/complaintController.js:115-116 | `doc.save()`: validation, hook, then insert or replace by id; nothing is stored on failure |
| `ComplaintController.ComplaintStore.CreateComplaint` | backend/controllers/complaintController.js:57-81 | reply and new collection are those of CreateEffect; the id counter advances only on success |
| `ComplaintController.ComplaintStore.UpdateComplaint` | backend/controllers/complaintController.js:86-123 | reply and new collection are those of UpdateEffect; the collection stays well formed |
| `ComplaintController.ComplaintStore.UpdateComplaintStatus` | backend/controllers/complaintController.js:128-158 | reply and new collection are those of UpdateStatusEffect |
| `ComplaintController.ComplaintStore.DeleteComplaint` | backend/controllers/complaintController.js:163-183 | reply and new collection are those of DeleteEffect |
| `AuthController.GenerateToken` | backend/controllers/authController.js:7-11 | the token carries exactly the id, email and role it was issued for |
| `AuthController.SessionFor` | backend/controllers/authController.js:51-60 | the reply's user is the account's (id, email, role), and the token carries the same triple |
| `AuthController.NewAccount` | backend/controllers/authController.js:42-46 | a provisioned account has the verified email and provider id, and role 'user' |
| `AuthController.AddKeepsInvariant` | backend/controllers/authController.js:42-48 | adding a fresh account under its own email keeps accounts keyed by email with distinct ids |
| `AuthController.RegisterEffect` | backend/controllers/authController.js:16-66 | a missing email or password gives 400 without the provider; an email that already has an account gives 400 without the provider; past those two checks the provider is always asked; its refusal gives 400; a verified email that is already taken gives 500; sign-up succeeds iff the provider was asked, it verified, and the verified email is free; failures change nothing; success gives 201 and adds the new 'user' account under the verified email |
| `AuthController.RegisterAddsOne` | backend/controllers/authController.js:42-61 | a successful sign-up adds exactly one key, with role 'user', and changes no existing account |
| `AuthController.LoginEffect` | backend/controllers/authController.js:71-118 | missing fields give 400 without the provider, which is asked iff both fields are truthy; a provider refusal gives 401 with no change; login succeeds iff both fields are truthy and the provider verifies; success returns the account under the verified email, unchanged if it existed and newly created otherwise |
| `AuthController.LoginGetOrCreate` | backend/controllers/authController.js:90-101 | an existing account's role (admin included) is returned unchanged, a new one gets 'user', and afterwards exactly one account has the verified email |
| `AuthController.LoginTwice` | backend/controllers/authController.js:90-101 | a second successful login with the same identity changes nothing and returns the same reply |
| `AuthController.LogoutReply` | backend/controllers/authController.js:123-131 | logout answers 200 iff the provider signs out, 400 otherwise |
| `AuthController.AccountStore.CreateAccount` | backend/controllers/authController.js:95-100 | saving a new account adds exactly that email with a fresh id |
| `AuthController.AccountStore.RegisterUser` | backend/controllers/authController.js:16-66 | reply, accounts and whether the provider was consulted are those of RegisterEffect |
| `AuthController.AccountStore.LoginUser` | backend/controllers/authController.js:71-118 | reply, accounts and whether the provider was consulted are those of LoginEffect |
| `AuthController.AccountStore.GetUserProfile` | backend/controllers/authController.js:136-148 | 404 iff no account has the caller's id; otherwise the unique account with that id |
| `AuthContext.Reduce` | frontend/src/context/AuthContext.js:7-35 | SET_USER sets the user, sets isAuthenticated iff a user is given, clears loading and keeps the error; SET_LOADING changes only loading; SET_ERROR sets the error and clears loading, keeping the user; CLEAR_ERROR changes only the error, to null; unknown actions change nothing; consistency of isAuthenticated with user is kept |
| `AuthContext.Run` | frontend/src/context/AuthContext.js:7-35 | folding any action sequence from a consistent state ends in a consistent state |
| `AuthContext.Initial` | frontend/src/context/AuthContext.js:38-43 | the reducer starts with no user, not authenticated, loading, and no error |
| `AuthContext.ReachableConsistent` | frontend/src/context/AuthContext.js:38-43 | isAuthenticated == (user != null) in every state reachable from the initial one |
| `AuthContext.RunAppend` | frontend/src/context/AuthContext.js:38 | dispatching two sequences one after the other equals dispatching their concatenation |
| `AuthContext.FromSession` | frontend/src/context/AuthContext.js:64-68 | a session user without role metadata gets role 'user'; the role is never empty |
| `AuthContext.LoginErrorMessage` | frontend/src/context/AuthContext.js:185 | the error is the server's message when it is truthy, otherwise the client error's message when that is truthy, otherwise 'Login failed'; it is never empty |
| `AuthContext.LoginActions` | frontend/src/context/AuthContext.js:155-191 | login dispatches four actions: loading on, error cleared, then the user or error of the result login returns, then loading off |
| `AuthContext.LoginResult` | frontend/src/context/AuthContext.js:155-191 | login succeeds iff the provider and the backend both accept, with the backend's user; a provider refusal returns its message, a backend refusal the message LoginErrorMessage picks |
| `AuthContext.SignupActions` | frontend/src/context/AuthContext.js:119-153 | signup opens with loading on and error cleared and closes with loading off; refused, it dispatches the provider's error; accepted, it dispatches login's whole sequence and then login's result |
| `AuthContext.SignupResult` | frontend/src/context/AuthContext.js:119-153 | signup succeeds iff sign-up, sign-in and the backend login all succeed; a refused sign-up returns the provider's message, an accepted one returns login's result |
| `AuthContext.LogoutActions` | frontend/src/context/AuthContext.js:193-219 | logout dispatches loading on, then no user on success or the provider's error on failure, then loading off, without clearing an earlier error |
| `AuthContext.LoginFinalState` | frontend/src/context/AuthContext.js:155-191 | after login, loading is false; on success the user is set and the error is null; on failure the error is the returned message and the user is unchanged |
| `AuthContext.SignupFinalState` | frontend/src/context/AuthContext.js:119-153 | after signup, loading is false; success and failure end as login's do, or with the provider's sign-up error |
| `AuthContext.SignupAcceptedRun` | frontend/src/context/AuthContext.js:119-153 | an accepted sign-up leaves the state that login reaches from the opening pair, then applies what login returned, then ends loading |
| `AuthContext.LogoutFinalState` | frontend/src/context/AuthContext.js:193-219 | after logout, loading is false; on success nobody is signed in; on failure the error is set and the user is unchanged |
| `AuthContext.SessionCheckUser` | frontend/src/context/AuthContext.js:46-89 | no session means no user; with a session, a truthy stored token and a successful profile call, the user is the backend's profile; with a session but no stored token, or a failed profile call, the user is built from the session |
| `AuthContext.AuthProvider.Dispatch` | frontend/src/context/AuthContext.js:38 | dispatch applies the reducer, logs the action and keeps the state consistent |
| `AuthContext.AuthProvider.Login` | frontend/src/context/AuthContext.js:155-191 | login dispatches exactly LoginActions, ends in their fold, and stores the token only on success |
| `AuthContext.AuthProvider.Signup` | frontend/src/context/AuthContext.js:119-153 | signup dispatches exactly SignupActions (login's included) and ends in their fold |
| `AuthContext.AuthProvider.Logout` | frontend/src/context/AuthContext.js:193-219 | the stored token is gone afterwards even when sign-out fails; logout dispatches exactly LogoutActions |
| `AuthContext.SessionCheckFinalState` | frontend/src/context/AuthContext.js:46-89 | after the session check, loading is false, the client is authenticated iff a session exists, an earlier error is kept, and the backend profile wins when it is fetched |
| `AuthContext.AuthProvider.CheckSession` | frontend/src/context/AuthContext.js:46-89 | one SET_USER with SessionCheckUser's user, which ends loading |
| `AuthContext.AuthProvider.OnAuthStateChange` | frontend/src/context/AuthContext.js:94-112 | one SET_USER with the session's user, or null without a session |
| `ProtectedRoute.Guard` | frontend/src/components/ProtectedRoute.js:5-33 | loading shows the loading view whatever the user or role; no user redirects to /login; a truthy required role that differs redirects to /dashboard, whatever that role is; children render iff not loading, a user is present, and the role matches when one is required |
| `ProtectedRoute.AnyUserWithoutRequiredRole` | frontend/src/components/ProtectedRoute.js:5-33 | with no (or an empty) required role, any signed-in user is rendered through |
| `ProtectedRoute.RenderNeedsAuthentication` | frontend/src/components/ProtectedRoute.js:10-33 | over a consistent reducer state, rendering implies authenticated and not loading |
| `AdminDashboard.PatchStatus` | frontend/src/pages/AdminDashboard.js:52-58 | length and order kept; an entry with the matching id gets the new status with every other field unchanged; other entries unchanged |
| `AdminDashboard.AfterUpdateStatus` | frontend/src/pages/AdminDashboard.js:46-63 | a failed call leaves the list unchanged; a successful one patches it with the server-returned status |
| `AdminDashboard.PatchStatusIdempotent` | frontend/src/pages/AdminDashboard.js:52-58 | patching twice with the same status equals patching once |
| `AdminDashboard.StatusColor` | frontend/src/pages/AdminDashboard.js:33-44 | Pending is yellow, In Progress blue, Resolved green |
| `AdminDashboard.StatusColorCoversSchema` | frontend/src/pages/AdminDashboard.js:33-44 | the colour is gray iff the status is not one of the schema's three; the three colours are distinct |

## Left out

- Populating `owner` with `{_id, email}`. Replies carry the owner's id.
- Database lookups that throw. A path id that is not a well-formed ObjectId
  makes `findById` throw a cast error, answered 500. The model takes ids as
  already parsed.
- Transient store or provider failures reaching the `catch` blocks (500). Only
  validation failures and the unique email index are modelled.
- Request bodies are modelled as absent or string for each field. Numbers,
  arrays and objects are left out, because Mongoose casting of such values is
  outside the core.
- Title length is counted in Unicode code points. JavaScript counts UTF-16 code
  units, so the two differ only for characters outside the Basic Multilingual
  Plane.
- The `protect` and `admin` middleware. Their source is not part of this model.
  The caller reaches each handler already authenticated. The `admin` guard in
  front of the status route (backend/routes/complaintRoutes.js:25) is not
  modelled; the handler's own role check is.
- `backend/models/User.js` is not part of this model. The model assumes that it
  declares `email` unique. Accounts are therefore keyed by email, and no two
  accounts share one. Under that assumption, a sign-up whose verified email
  differs from the requested one but is already taken fails the unique index
  on save and answers 500.
- JWT signing and expiry. The token is the opaque triple `(id, email, role)`.
- `supabase` calls, `axios` and `localStorage`. Their answers are inputs, and
  the stored token is a field. On the client, a provider call that throws and
  one that returns `{error}` are one answer (`Refused`). In the backend handlers
  `Refused` is only the returned `{error}`. A throw there reaches the `catch`
  block and answers 500; that path is left out with the other transient
  failures above.
- React rendering, form state, `Dashboard.js`, `EditComplaint.js`,
  `utils/api.js` and the Supabase client setup. These are UI and I/O plumbing.
- Concurrency. Races between two first logins for the same email are not
  modelled, and each handler runs atomically.
- `AuthContext.LoginFinalState`: treats each dispatch sequence as atomic. The
  provider's `onAuthStateChange` listener can dispatch in the middle of `login`,
  `signup` or `logout`. For example, a successful provider sign-in fires it, so
  a login that the backend then refuses can end with the session's user set as
  well as the error. `SignupFinalState` and `LogoutFinalState` have the same
  limit.
- `ComplaintController.SortNewestFirst`: fixes one order for complaints created
  in the same millisecond. The database may return such ties in any order.
- `AuthContext.AuthProvider.Dispatch`: the class invariant states only that
  isAuthenticated agrees with user. That the state is the fold of the whole log
  from the initial state is proved separately (`ReachableConsistent`, `Run`,
  `RunAppend`), not kept as a field invariant.

## Findings

| source | as written | input that shows it | evidently intended | confidence | as-written member | corrected member |
|---|---|---|---|---|---|---|
| backend/models/Complaint.js:23-30 | `default: 'Pending'` sits inside the `enum` validator's options, where Mongoose does not read it, and `status` is not required | any create request with a valid title, description and category: the saved complaint has no status, and the dashboard shows it gray | a new complaint starts as Pending | medium, not executed | `ComplaintSchema.StatusDefaultNotApplied` | `ComplaintSchema.NewDocument` |
