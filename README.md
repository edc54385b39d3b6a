# FishVault client state, in Dafny

FishVault is a Next.js password-vault front end backed by Supabase. This project models the two pieces of its client code that hold and change state:

- **The `useVault` hook** (module `UseVault`, class `VaultHook`). It caches the user's `vault_items` rows as `{items, loading, error}`. It runs fetch, add, update, delete and search against the storage service. Every service call is replaced by a `reply` parameter: the service's answer, `Ok(row | rows)` or `Err(e)`. Each React `setState` call becomes one call of `VaultHook.SetState`. That method commits the new state and appends it to the ghost sequence `renders`, so each contract states every state the hook commits, in order:
  - the guard on `userId`;
  - the "loading on, error cleared" commit made before the service is contacted;
  - the final commit after the reply arrives.

  The list updaters are the recursive functions `ReplaceById` (the `map` of update) and `RemoveById` (the `filter` of delete). Lemmas prove what they preserve.
- **The dashboard page** (module `Dashboard`, class `DashboardPage`). This is the page's own in-memory list of entries. It has an add-entry form with a modal, the set of entries whose password is shown, a 16-character password generator and a category-to-icon table. The browser inputs are parameters:
  - `crypto.randomUUID()` is the `id` argument;
  - `new Date()` is the `now` argument;
  - the 16 `Math.floor(Math.random() * 70)` draws are the `draws` argument.

The storage row shape is `SupabaseTypes.VaultItem`. `userId: string | undefined` is `Option<string>`. The hook's guard `!userId` also rejects the empty string, so `SignedIn` requires a non-empty id.

The repository's landing page advertises several security features:
- Twofish encryption;
- PBKDF2 key derivation with 100,000 iterations;
- a 15-minute auto-lock;
- clearing the clipboard after 30 seconds.

None of them has implementing code in the repository. The dashboard keeps passwords in plain memory, and the hook passes `encrypted_blob` through as an opaque string. The model follows the code, so no cryptographic engine is modelled.

## Model

| member | source | states |
|---|---|---|
| UseVault.VaultHook.constructor | src/hooks/useVault.ts:14-18 | The hook starts with no items, `loading` false, no error, and nothing committed yet. |
| UseVault.VaultHook.FetchVaultItems | src/hooks/useVault.ts:23-46 | Without a user it returns nothing and changes nothing, not even the commit record. With a user it first commits loading on and error cleared with the items kept. On a service error the items are kept, `loading` is false and the error is held and returned. On success the items become exactly the returned rows, with `loading` false and no error. |
| UseVault.VaultHook.AddVaultItem | src/hooks/useVault.ts:49-76 | Without a user it returns "Not authenticated" and changes nothing. With a user it first commits loading on and error cleared. On a service error the items are kept and the error is held and returned. On success the returned row is at index 0, followed by the previous items in their order, with `loading` false and no error. |
| UseVault.VaultHook.UpdateVaultItem | src/hooks/useVault.ts:79-107 | Without a user it returns "Not authenticated" and changes nothing. With a user it first commits loading on and error cleared. On a service error the items are kept and the error is held and returned. On success the items become `ReplaceById(old items, id, row)`, with `loading` false and no error. |
| UseVault.VaultHook.DeleteVaultItem | src/hooks/useVault.ts:110-133 | Without a user it returns "Not authenticated" and changes nothing. With a user it first commits loading on and error cleared. On a service error the items are kept and the error is held and returned. On success it returns a null error and the items become `RemoveById(old items, id)`, with `loading` false. |
| UseVault.VaultHook.SearchVaultItems | src/hooks/useVault.ts:136-151 | Without a user it returns empty data. Otherwise it returns the service's rows or its error. It never changes the hook's state, since the method has no `modifies` clause. |
| UseVault.ReplaceById | src/hooks/useVault.ts:102 | Length is preserved. Every position whose id is the target holds the returned row, and every other position holds its old item. |
| UseVault.ReplaceAbsent | src/hooks/useVault.ts:102 | Updating an id that no item carries leaves the list unchanged. |
| UseVault.ReplaceKeepsIds | src/hooks/useVault.ts:90-102 | When the returned row carries the target id, the ids of the list are unchanged, position by position. |
| UseVault.ReplaceIdempotent | src/hooks/useVault.ts:102 | Applying the same update reply twice gives the same list as applying it once. |
| UseVault.RemoveById | src/hooks/useVault.ts:128 | The result is no longer than the input. A row is in the result exactly when it is in the input and its id differs from the target, so no item with the target id remains. |
| UseVault.RemoveKeepsOrder | src/hooks/useVault.ts:128 | The surviving items form a subsequence of the input: their relative order is kept. |
| UseVault.RemoveCounts | src/hooks/useVault.ts:128 | Every copy of a row with the target id is dropped, and every copy of every other row is kept. The multiset of the result is exactly the input's, restricted to the other ids. |
| UseVault.RemoveAbsent | src/hooks/useVault.ts:128 | Deleting an id that no item carries leaves the list unchanged. |
| UseVault.RemoveIdempotent | src/hooks/useVault.ts:126-130 | Deleting the same id a second time changes nothing more. |
| UseVault.DeleteTwice | src/hooks/useVault.ts:110-133 | Two successful deletes of the same id through the hook leave the items of a single delete. |
| Dashboard.DashboardPage.constructor | src/app/dashboard/page.tsx:29-33 | The page starts with an empty list, an empty visible set, a blank form whose category is "Login", and the modal closed. |
| Dashboard.DashboardPage.HandleAddItem | src/app/dashboard/page.tsx:55-71 | An empty title or password changes nothing: not the list, the form, the modal flag or the visible set. Otherwise the entry built from the form, the given id and the given time is prepended, so the list grows by one. The form is reset to blank with category "Login" and the modal is closed. |
| Dashboard.ItemFromForm | src/app/dashboard/page.tsx:58-66 | The new entry carries the given id and time. Its title, username, password, website and category are exactly the form's. |
| Dashboard.DashboardPage.TogglePasswordVisibility | src/app/dashboard/page.tsx:79-87 | The visible set becomes `Toggled(old set, id)`, and nothing else on the page changes. |
| Dashboard.Toggled | src/app/dashboard/page.tsx:79-87 | `id` is in the result exactly when it was not in the input. Every other id keeps its membership. |
| Dashboard.ToggleTwice | src/app/dashboard/page.tsx:79-87 | Toggling the same id twice restores the original set. |
| Dashboard.ToggleCommutes | src/app/dashboard/page.tsx:79-87 | Toggling two ids gives the same set in either order. |
| Dashboard.DashboardPage.GeneratePassword | src/app/dashboard/page.tsx:89-96 | The form's password becomes exactly 16 characters. Character i is the alphabet character at draw i, so every character is in the 70-character alphabet. Every other form field and the rest of the page are unchanged. |
| Dashboard.PasswordFrom | src/app/dashboard/page.tsx:90-94 | The password spelled by the draws has one character per draw, and each character is the alphabet character at that draw's index. |
| Dashboard.EveryPasswordReachable | src/app/dashboard/page.tsx:90-94 | Every string over the alphabet is spelled by some valid draws. The generator can therefore produce every 16-character password over its alphabet. |
| Dashboard.CategoryEmoji | src/app/dashboard/page.tsx:98-110 | The icon is never empty and is always one of the table's eight icons. |
| Dashboard.CategoryEmojiTable | src/app/dashboard/page.tsx:98-110 | Each of the eight listed categories gets its own icon. Any other string gets the folder icon. |
| Dashboard.FolderExactlyForOthers | src/app/dashboard/page.tsx:98-110 | The folder icon appears exactly for categories outside the first seven of the table ("Other" and unknown strings). |

## Left out

- Query construction and server semantics: the `user_id` filter, the `updated_at` ordering and the `ilike` title search (src/hooks/useVault.ts:28-32, :139-144) run inside the Supabase library. The reply is a parameter, so the model does not constrain which rows the service returns.
- The insert and update payloads (title, encrypted blob, user id) go only to the service. Beyond the returned row they have no effect on the hook's state, so they are not parameters of the model.
- Interleaving of `setState` commits across `await`: each operation is modelled as one atomic sequence of commits. In the source, a concurrent operation could commit between the two commits of another.
- The error returned by the service is cast to `Error`. The model represents every error by its message only.
- SearchVaultItems: the search pattern `%query%` is built and used only by the service, so the model has no `query` parameter.
- `handleCopy` (clipboard API and a 2-second timer), `handleSignOut` and the `useEffect` user check with its redirect: browser, timer and authentication calls.
- The inline JSX handlers that open or close the modal and set single form fields are not modelled as separate operations. Their effect is one field assignment each.
- CategoryEmoji: the model treats the table as a plain map. In JavaScript, inherited `Object.prototype` names such as "constructor" would return a non-string. The form's category menu offers only the eight listed names, so no such category reaches the function.
- UTF-16 string lengths: an icon is one Unicode character in the model but two JavaScript code units.
- Uniqueness of ids is not assumed anywhere, because nothing in the code enforces it. Update and delete act on every row with the target id.
- `src/hooks/useAuth.ts`, `src/app/auth/callback/route.ts`, `src/lib/supabase/client.ts`, the login and signup pages and the landing page are wrappers over authentication calls, redirects, environment checks or markup. They are not part of this model.
