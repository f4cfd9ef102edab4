# Valentine pages: a Dafny model of the server and its two main screens

The system lets a creator sign up, write content for each of the eight Valentine
days (Rose Day to Valentine's Day), upload up to six photos per day from the
dashboard, and share a page per day. Visitors open `/<username>/<day>`, or the
short link `/<day>` that shows the creator an admin has featured.

This project models four parts of it:

- **The edge function** (`server.dfy`, `server_rules.dfy`). A key-value store
  with typed values sits in a `class Server`. Each handler is a method: signup,
  profile update, photo upload and delete, day content update, setting the
  featured creator, and the public profile. The read-only handlers are
  functions: sign-in's email resolution, current user, day content, featured
  page, admin settings. Every method keeps the store invariant `Valid()`:
  - each profile holds its own user name;
  - the `user_id_` and `email_` indices point at existing profiles;
  - `all_usernames` is duplicate-free and every name in it has a profile;
  - `featured_username`, when set, names a profile.

  Around the handlers sit the proved rules: user-name normalisation, which is
  idempotent and ignores case and white space, the admin role gate, the
  storage-path layout and its parse-back by `parseInt`, token extraction, and
  sign-in after signup.
- **The day table** (`valentine_days.dfy`). `VALENTINE_DAYS`, the lookup built
  from it by `reduce`, and `VALID_DAY_PATHS`. The server's own day list is
  proved equal to it.
- **The public page** (`valentine_page.dfy`). Song-link embedding, route
  normalisation, the fallbacks for the displayed text, and `loadPageData` as a
  method on the page's state.
- **The dashboard** (`dashboard.dfy`). The per-day photo lists and content
  forms kept by `class DashboardState`, plus four handlers:
  - the six-photo upload loop;
  - photo deletion;
  - field edits;
  - the five-click logo counter.

The JavaScript semantics the code relies on are written out. `json.dfy`
covers truthiness, `a || b` and object spread. `text.dfy` covers `trim`,
`\s`, `toLowerCase`, `includes`, `indexOf`, `split`, replacing the first
match, and `parseInt` including its `0x` prefix. `photos.dfy` covers the
photo-list filters.

Calls into code outside the model become parameters:
- the auth provider (`session`, `created`);
- the blob store (`uploadError`, the `signer` function for signed URLs);
- `Date.now()` and ISO timestamps (`now`, `createdAt`, `uploadedAt`);
- the client's requests (`publicProfile`, `content`, `featured`) and the server's answer to each upload call of the dashboard (`upload`, given per call position).

Observations the model makes precise:
- `GET /user` never uses its `{ username, email }` fallback, because the
  identity's profile is `{}` at worst and `{}` is truthy (`Server.GetUser`).
- At sign-in a user name containing `@` is looked up as an email.
- `GET /day-content/:username/:day` does not validate the day.
- The server itself does not cap a day at six photos; only the dashboard does.

## Model

| member | source | states |
|---|---|---|
| Json.Truthy | src/app/components/ValentinePage.tsx:13 | JavaScript truthiness of a JSON value: `null`, `false`, `0` and `''` are falsy, everything else (objects and arrays included) is truthy; the properties are stated by `FieldOr` |
| Json.Merge | supabase/functions/make-server-3b2037e0/index.tsx:459 | `{ ...base, ...over }`; its keys and values are stated by `MergeKeys` and `MergeAssociative` |
| Json.Lookup | src/app/components/ValentinePage.tsx:147 | `obj?.key` is present exactly when the key is, and is then the stored field |
| Json.FieldOr | src/app/components/ValentinePage.tsx:147-152 | `obj?.key \|\| fallback` is the stored field when it is truthy, the fallback otherwise |
| Json.MergeKeys | supabase/functions/make-server-3b2037e0/index.tsx:459 | object spread: the keys are the union, the later object wins, other keys keep the earlier value |
| Json.MergeAssociative | supabase/functions/make-server-3b2037e0/index.tsx:457-459 | two successive content updates equal one update with their spread |
| Text.IsSpace | supabase/functions/make-server-3b2037e0/index.tsx:85 | the white space of `trim()` and `\s`: the WhiteSpace and LineTerminator characters of ECMA-262 (tab, line feed, vertical tab, form feed, carriage return, space, no-break space, the Unicode space separators, line and paragraph separators, and the byte order mark); every trimming and normalisation lemma is stated over it |
| Text.Lower | supabase/functions/make-server-3b2037e0/index.tsx:85 | lower-casing keeps the length, leaves no upper-case letter, changes only upper-case letters, and keeps white space where it was |
| Text.TrimStart | supabase/functions/make-server-3b2037e0/index.tsx:91 | the result is a suffix of the input, everything dropped is white space, and it does not start with white space |
| Text.TrimEnd | supabase/functions/make-server-3b2037e0/index.tsx:91 | the result is a prefix of the input, everything dropped is white space, and it does not end with white space |
| Text.Trim | supabase/functions/make-server-3b2037e0/index.tsx:85 | `trim()` keeps a contiguous piece of the input, cuts only white space at each end, and what it keeps starts and ends with non-space |
| Text.RemoveSpaces | supabase/functions/make-server-3b2037e0/index.tsx:85 | `replace(/\s+/g, '')` leaves no white space, keeps only characters of the input, and is the identity on space-free text |
| Text.RemoveSpacesConcat | supabase/functions/make-server-3b2037e0/index.tsx:85 | removing white space distributes over concatenation |
| Text.IndexFrom | src/app/components/ValentinePage.tsx:15 | the search from an index finds the first occurrence at or after it, or proves there is none |
| Text.IndexOf | src/app/components/ValentinePage.tsx:15 | `indexOf` gives the first occurrence, or none exists |
| Text.Contains | src/app/components/ValentinePage.tsx:15 | `includes` holds exactly when the pattern occurs somewhere |
| Text.Before | src/app/components/ValentinePage.tsx:17 | `split(sep)[0]` is the longest prefix before the first separator, the whole text when there is none |
| Text.SplitSecond | supabase/functions/make-server-3b2037e0/index.tsx:52 | `split(sep)[1]` is absent exactly when the separator never occurs, else the text between the first and the next separator |
| Text.ReplaceFirst | src/app/components/ValentinePage.tsx:16 | a string `replace` rewrites only the first occurrence and leaves text without the pattern alone |
| Text.FirstAtUnique | src/app/components/ValentinePage.tsx:16 | the first occurrence is unique |
| Text.DecimalString | supabase/functions/make-server-3b2037e0/index.tsx:307 | `${timestamp}` is a non-empty run of digits without a leading zero |
| Text.LeadingDigits | supabase/functions/make-server-3b2037e0/index.tsx:366 | the prefix `parseInt` reads is all digits and stops at the first non-digit |
| Text.DecimalStringValue | supabase/functions/make-server-3b2037e0/index.tsx:307 | the digits of the decimal rendering have the rendered value |
| Text.LeadingDigitsAll | supabase/functions/make-server-3b2037e0/index.tsx:366 | an all-digit string is read whole |
| Text.ParseInt | supabase/functions/make-server-3b2037e0/index.tsx:366 | `parseInt` without a radix, NaN as none: leading white space, an optional sign, `0x` switching to hexadecimal, then the longest digit run, NaN when it is empty; stated by `ParseIntDecimalString`, `ParseIntDecimalPrefix` and `ParseIntNoDigits` |
| Text.ParseIntDecimalString | supabase/functions/make-server-3b2037e0/index.tsx:366 | `parseInt` of a rendered id gives the id back |
| Text.ParseIntDecimalPrefix | supabase/functions/make-server-3b2037e0/index.tsx:305-307 | `parseInt` of a rendered id followed by text that starts with neither a digit nor `x` gives the id |
| Text.DigitsThenStop | supabase/functions/make-server-3b2037e0/index.tsx:366 | the digit run ends exactly where the non-digit text begins |
| Text.ParseIntNoDigits | supabase/functions/make-server-3b2037e0/index.tsx:366-368 | a photo id without any digit parses as NaN, so the delete answers 404 |
| Photos.WithoutId | supabase/functions/make-server-3b2037e0/index.tsx:375 | the filter drops every record with the id and keeps every other record as often as before |
| Photos.WithoutIdConcat | supabase/functions/make-server-3b2037e0/index.tsx:375 | the filter works piece by piece, so kept records keep their order |
| Photos.WithoutAbsentId | supabase/functions/make-server-3b2037e0/index.tsx:375 | a list without the id is unchanged |
| Photos.FindById | supabase/functions/make-server-3b2037e0/index.tsx:366 | `find` fails exactly when no record has the id, and otherwise returns a record of the list with that id |
| Photos.FoundIsRemoved | supabase/functions/make-server-3b2037e0/index.tsx:366-375 | a record that was found is really removed and the list shrinks |
| Photos.Refresh | supabase/functions/make-server-3b2037e0/index.tsx:406 | a non-empty fresh signed URL replaces the stored one, and id, path and time are kept |
| Photos.RefreshAll | supabase/functions/make-server-3b2037e0/index.tsx:401-408 | every record is re-signed from its own path, in order |
| ValentineDays.Index | src/app/constants/valentineDays.ts:86-89 | the `reduce` that sets `acc[day.path] = day` for each day in turn; stated by `IndexKeys`, `IndexSize`, `IndexAt` and `IndexCorrect` |
| ValentineDays.DayMap | src/app/constants/valentineDays.ts:86-89 | `VALENTINE_DAY_MAP`, the reduce from `{}`; stated by `DayMapCorrect` |
| ValentineDays.ValidDayPaths | src/app/constants/valentineDays.ts:91 | `VALID_DAY_PATHS`, the paths of the table; stated by `DaysPaths` and `ValidPathsAreKeys` |
| ValentineDays.Paths | src/app/constants/valentineDays.ts:91 | the path list has one entry per day, in table order |
| ValentineDays.DaysShape | src/app/constants/valentineDays.ts:11-84 | `VALENTINE_DAYS` holds eight days with pairwise distinct paths |
| ValentineDays.DaysPaths | src/app/constants/valentineDays.ts:91 | `VALID_DAY_PATHS` is rose, propose, chocolate, teddy, promise, hug, kiss, valentine |
| ValentineDays.PathSetCons | src/app/constants/valentineDays.ts:86-89 | the paths of a table are its first path plus the paths of the rest |
| ValentineDays.IndexKeys | src/app/constants/valentineDays.ts:86-89 | the `reduce` adds exactly the table's paths as keys |
| ValentineDays.IndexSize | src/app/constants/valentineDays.ts:86-89 | with distinct paths, no step of the `reduce` overwrites an entry |
| ValentineDays.IndexAt | src/app/constants/valentineDays.ts:86-89 | with distinct paths, each path maps to its own day |
| ValentineDays.IndexUntouched | src/app/constants/valentineDays.ts:86-89 | a key no remaining day has keeps its entry |
| ValentineDays.IndexCorrect | src/app/constants/valentineDays.ts:86-89 | for a table with distinct paths, the `reduce` from `{}` has exactly the paths as keys, one entry per day, each mapping to its own day |
| ValentineDays.DayMapCorrect | src/app/constants/valentineDays.ts:86-89 | `VALENTINE_DAY_MAP` has the eight paths as keys and maps each to its day |
| ValentineDays.DayMapKeys | src/app/constants/valentineDays.ts:86-89 | the lookup's keys are the table's eight paths |
| ValentineDays.ValidPathsAreKeys | src/app/constants/valentineDays.ts:91 | a path is in `VALID_DAY_PATHS` exactly when it is a key of the lookup |
| ValentineDays.DefaultsNonEmpty | src/app/constants/valentineDays.ts:11-84 | every day has a non-empty name and default message |
| ServerRules.IsValidDay | supabase/functions/make-server-3b2037e0/index.tsx:35 | `isValidDay`: membership in `DAY_PATHS` (line 8); `DayPathsMatchTable` proves it is membership in the client's day map |
| ServerRules.IsEmail | supabase/functions/make-server-3b2037e0/index.tsx:34 | `isEmail`: the text contains `@` |
| ServerRules.NormalizeUsername | supabase/functions/make-server-3b2037e0/index.tsx:85 | `toLowerCase().trim().replace(/\s+/g, '')`; stated by `NormalizeUsernameShape`, `NormalizeUsernameIgnoresSpace`, `NormalizeUsernameIgnoresCase` and `NormalizeUsernameIdempotent` |
| ServerRules.DayPathsMatchTable | supabase/functions/make-server-3b2037e0/index.tsx:8 | the server's `DAY_PATHS` is the client's `VALID_DAY_PATHS`, and `isValidDay` accepts exactly the lookup's keys |
| ServerRules.NormalizeEmail | supabase/functions/make-server-3b2037e0/index.tsx:91 | the stored email has no upper-case letter and no surrounding white space |
| ServerRules.NormalizeFeatured | supabase/functions/make-server-3b2037e0/index.tsx:560 | the featured name has no upper-case letter and no surrounding white space |
| ServerRules.TrimKeepsNoUpper | supabase/functions/make-server-3b2037e0/index.tsx:560 | trimming a lower-case text keeps it lower-case |
| ServerRules.AllSpaceRemoved | supabase/functions/make-server-3b2037e0/index.tsx:85-86 | an all-white-space name normalises to `''` |
| ServerRules.TrimSubsumed | supabase/functions/make-server-3b2037e0/index.tsx:85 | the `trim()` before removing all white space changes nothing |
| ServerRules.SpacePrefixRemoved | supabase/functions/make-server-3b2037e0/index.tsx:85 | white space in front disappears when all white space is removed |
| ServerRules.SpaceSuffixRemoved | supabase/functions/make-server-3b2037e0/index.tsx:85 | white space at the end disappears when all white space is removed |
| ServerRules.LowerConcat | supabase/functions/make-server-3b2037e0/index.tsx:85 | lower-casing distributes over concatenation |
| ServerRules.LowerOfLower | supabase/functions/make-server-3b2037e0/index.tsx:85 | lower-casing a lower-case text changes nothing |
| ServerRules.NormalizeUsernameShape | supabase/functions/make-server-3b2037e0/index.tsx:85-88 | a normalised name has no white space or upper case, and it is `''` (400 'Username is invalid') exactly when the raw name is all white space |
| ServerRules.RemoveSpacesKeepsNoUpper | supabase/functions/make-server-3b2037e0/index.tsx:85 | removing white space keeps a text lower-case |
| ServerRules.RemoveSpacesEmpty | supabase/functions/make-server-3b2037e0/index.tsx:85-86 | removing white space gives `''` exactly when the text is all white space |
| ServerRules.KeepsNonSpace | supabase/functions/make-server-3b2037e0/index.tsx:85-86 | a name with one non-space character is not removed entirely |
| ServerRules.NormalizeUsernameIgnoresSpace | supabase/functions/make-server-3b2037e0/index.tsx:152-153 | white space inserted anywhere in a name does not change its normal form |
| ServerRules.NormalizeUsernameIgnoresCase | supabase/functions/make-server-3b2037e0/index.tsx:152-153 | letter case does not change the normal form |
| ServerRules.NormalizeUsernameIdempotent | supabase/functions/make-server-3b2037e0/index.tsx:153 | normalising twice equals normalising once |
| ServerRules.SignupRole | supabase/functions/make-server-3b2037e0/index.tsx:93-96 | admin exactly when `'admin'` was asked for and the passcode is configured and matches; refused exactly when `'admin'` was asked for otherwise; member for every other request |
| ServerRules.SanitizeFileName | supabase/functions/make-server-3b2037e0/index.tsx:306 | the stored file name has only `[a-zA-Z0-9._-]`, keeps the UTF-16 length, and is `image` for a missing name |
| ServerRules.ReplaceUnsafe | supabase/functions/make-server-3b2037e0/index.tsx:306 | every character of the result is safe, the UTF-16 length is kept, and a name of safe characters is unchanged; `ReplaceUnsafeChar` and `ReplaceUnsafeConcat` give the rule character by character |
| ServerRules.ReplaceUnsafeChar | supabase/functions/make-server-3b2037e0/index.tsx:306 | a safe character is kept, an unsafe one becomes `_`, or `__` when it is outside the Basic Multilingual Plane |
| ServerRules.ReplaceUnsafeConcat | supabase/functions/make-server-3b2037e0/index.tsx:306 | the replacement distributes over concatenation, so it acts character by character |
| ServerRules.Utf16LengthConcat | supabase/functions/make-server-3b2037e0/index.tsx:306 | UTF-16 lengths add up over concatenation |
| ServerRules.BeforeSlash | supabase/functions/make-server-3b2037e0/index.tsx:307 | the text before the first `/` of `u/rest` is `u` when `u` has no `/` |
| ServerRules.ValidDayHasNoSlash | supabase/functions/make-server-3b2037e0/index.tsx:35 | no valid day contains `/`, so the day is a single path segment |
| ServerRules.PhotoPath | supabase/functions/make-server-3b2037e0/index.tsx:305-307 | `${username}/${day}/${timestamp}_${sanitizedName}`; stated by `PhotoPathParts` |
| ServerRules.PhotoPathParts | supabase/functions/make-server-3b2037e0/index.tsx:305-307 | the storage path splits back into owner and day, and `parseInt` of the last part gives the photo id |
| ServerRules.SplitPath | supabase/functions/make-server-3b2037e0/index.tsx:307 | a three-part path splits back at its first two slashes |
| ServerRules.AccessToken | supabase/functions/make-server-3b2037e0/index.tsx:52 | a non-blank `X-User-Token` header wins, trimmed |
| ServerRules.BearerToken | supabase/functions/make-server-3b2037e0/index.tsx:52 | without that header, `Authorization: Bearer <token>` yields the token |
| Server.ProfileKey | supabase/functions/make-server-3b2037e0/index.tsx:99 | `user_profile_<u>` ends with the user name and cannot collide with the other key families |
| Server.UserIdKey | supabase/functions/make-server-3b2037e0/index.tsx:129 | `user_id_<id>` is distinguishable from the other key families |
| Server.EmailKey | supabase/functions/make-server-3b2037e0/index.tsx:130 | `email_<e>` is distinguishable from the other key families |
| Server.PhotosKey | supabase/functions/make-server-3b2037e0/index.tsx:330 | `photos_<u>_<day>` is distinguishable from the other key families |
| Server.DayContentKey | supabase/functions/make-server-3b2037e0/index.tsx:433 | `day_content_<u>_<day>` is distinguishable from the other key families |
| Server.TextAt | supabase/functions/make-server-3b2037e0/index.tsx:43 | reading a string key gives the stored text, `''` when absent |
| Server.NamesAt | supabase/functions/make-server-3b2037e0/index.tsx:131-132 | `Array.isArray(raw) ? raw : []` |
| Server.PhotosAt | supabase/functions/make-server-3b2037e0/index.tsx:331 | `kv.get(photosKey) \|\| []` |
| Server.RecordAt | supabase/functions/make-server-3b2037e0/index.tsx:47 | `kv.get(...) \|\| {}` |
| Server.ProfileWriteValid | supabase/functions/make-server-3b2037e0/index.tsx:128 | writing a profile that holds its own name keeps the store invariant |
| Server.PhotosWriteValid | supabase/functions/make-server-3b2037e0/index.tsx:341 | writing a photo list keeps the store invariant |
| Server.ContentWriteValid | supabase/functions/make-server-3b2037e0/index.tsx:460 | writing day content keeps the store invariant |
| Server.FeaturedWriteValid | supabase/functions/make-server-3b2037e0/index.tsx:570 | naming an existing user as featured keeps the store invariant |
| Server.ResolveUsername | supabase/functions/make-server-3b2037e0/index.tsx:43-45 | the `user_id_` index wins, else the provider metadata name |
| Server.Authenticate | supabase/functions/make-server-3b2037e0/index.tsx:37-49 | every refusal is 401: 'Unauthorized' without a token, 'Invalid session' otherwise; success exactly when a token, a session and a name exist; the identity carries that name's profile or `{}` |
| Server.IndexedSessionHasProfile | supabase/functions/make-server-3b2037e0/index.tsx:43-48 | in a valid store an indexed session authenticates to the indexed name, whose stored profile holds that name |
| Server.IsAdmin | supabase/functions/make-server-3b2037e0/index.tsx:520 | `(identity.profile?.role \|\| 'member') === 'admin'`; stated by `AdminNeedsStoredRole` |
| Server.AdminNeedsStoredRole | supabase/functions/make-server-3b2037e0/index.tsx:520-522 | the admin check passes exactly when the stored role is `'admin'` |
| Server.NewProfile | supabase/functions/make-server-3b2037e0/index.tsx:118-126 | the signup profile has exactly its seven fields, with an empty message |
| Server.Registered | supabase/functions/make-server-3b2037e0/index.tsx:128-135 | the signup's four writes: profile, `user_id_` and `email_` indices, and `all_usernames` extended when the name is new; stated by `RegisteredValid`, `RegisteredLists`, `RegisteredTouches` and `RegisteredReads` |
| Server.RegisteredValid | supabase/functions/make-server-3b2037e0/index.tsx:128-136 | the four signup writes keep the store invariant |
| Server.RegisteredLists | supabase/functions/make-server-3b2037e0/index.tsx:131-136 | `all_usernames` gains the new name at the end only when absent and stays duplicate-free |
| Server.RegisteredTouches | supabase/functions/make-server-3b2037e0/index.tsx:128-136 | a signup changes no key besides its four |
| Server.UpdatedProfile | supabase/functions/make-server-3b2037e0/index.tsx:254-260 | the body's fields win except username, userId and role, which stay pinned (role = stored role \|\| 'member'), and other stored fields are kept |
| Server.UpdateCannotGrantAdmin | supabase/functions/make-server-3b2037e0/index.tsx:259 | no profile update makes a non-admin an admin |
| Server.UpdateIdempotent | supabase/functions/make-server-3b2037e0/index.tsx:254-260 | repeating an update changes nothing more |
| Server.StoredEmail | supabase/functions/make-server-3b2037e0/index.tsx:165 | `profile?.email` as a string, `''` when absent |
| Server.LoginIdentifier | supabase/functions/make-server-3b2037e0/index.tsx:153 | `(identifier \|\| email \|\| '')` normalised like a signup user name; stated by `NormalizedIsFixed` and `EmailIsOwnIdentifier` |
| Server.IndexedEmail | supabase/functions/make-server-3b2037e0/index.tsx:162-165 | the email stored in the profile that the `email_` index names, `''` when either is missing |
| Server.SignInEmail | supabase/functions/make-server-3b2037e0/index.tsx:151-174 | 400 exactly when identifier or password is missing; 401 exactly for a user name whose profile has no email; a user name gets its stored email; an email gets the email stored in the profile its `email_` index names, and itself when there is none |
| Server.NormalizedIsFixed | supabase/functions/make-server-3b2037e0/index.tsx:153 | a space-free lower-case identifier is its own normal form |
| Server.SignInAfterSignup | supabase/functions/make-server-3b2037e0/index.tsx:151-174 | after a signup, signing in by the raw user name or by the stored email hands the registered email to the provider |
| Server.SignInKeepsStoredCase | supabase/functions/make-server-3b2037e0/index.tsx:160-166 | an email typed in lower case signs in with the stored spelling when that differs in letter case, never with the typed one |
| Server.RegisteredReads | supabase/functions/make-server-3b2037e0/index.tsx:128-130 | the new profile and the email index read back |
| Server.SignInByName | supabase/functions/make-server-3b2037e0/index.tsx:167-174 | a name whose profile has an email signs in with that email |
| Server.SignInByEmail | supabase/functions/make-server-3b2037e0/index.tsx:160-166 | an email whose index names a profile with a stored email signs in with that stored email |
| Server.SignInWithStored | supabase/functions/make-server-3b2037e0/index.tsx:151-174 | in any store where the name's profile holds the email and the email index names the user, both ways of signing in reach that email |
| Server.EmailIsOwnIdentifier | supabase/functions/make-server-3b2037e0/index.tsx:153 | a space-free lower-case email is its own sign-in identifier |
| Server.SignInUser | supabase/functions/make-server-3b2037e0/index.tsx:210-220 | sign-in returns the stored profile of the resolved name, else the provider's email with the name when there is one |
| Server.GetUser | supabase/functions/make-server-3b2037e0/index.tsx:228-237 | 401 with the identity's error, else the stored profile or `{}` |
| Server.DayContent | supabase/functions/make-server-3b2037e0/index.tsx:428-436 | the stored record, `{}` when nothing was saved |
| Server.Pick | supabase/functions/make-server-3b2037e0/index.tsx:412-418 | the picked keys are those of the object that were asked for, with their values |
| Server.PublicSummary | supabase/functions/make-server-3b2037e0/index.tsx:412-418 | the public profile has at most name, role, partner and message, with role defaulting to 'member' |
| Server.PublicSummaryIsPublic | supabase/functions/make-server-3b2037e0/index.tsx:412-418 | in a valid store it never exposes email, userId or createdAt and names the requested user |
| Server.FeaturedPage | supabase/functions/make-server-3b2037e0/index.tsx:469-508 | 400 for an invalid day, 404 without a featured name or profile, else that creator's public profile, day content and re-signed photos |
| Server.FeaturedPageResolves | supabase/functions/make-server-3b2037e0/index.tsx:476-484 | in a valid store a valid day fails only when no creator is set, and after one is set it shows that creator |
| Server.AdminSummary | supabase/functions/make-server-3b2037e0/index.tsx:531-536 | each listed user shows name, role \|\| 'member', partner \|\| '' and createdAt \|\| '' |
| Server.UserSummaries | supabase/functions/make-server-3b2037e0/index.tsx:527-542 | at most one summary per listed name, and one per name, in order, when every name has a profile; the name-by-name rule is in `UserSummariesOne`, `UserSummariesConcat` and `UserSummariesSkip` |
| Server.UserSummariesOne | supabase/functions/make-server-3b2037e0/index.tsx:528-542 | a single name gives its summary when it has a profile and nothing when it has none |
| Server.UserSummariesConcat | supabase/functions/make-server-3b2037e0/index.tsx:528-542 | the listing distributes over concatenation, so it works name by name in order |
| Server.UserSummariesSkip | supabase/functions/make-server-3b2037e0/index.tsx:542 | a name without a profile drops out and the rest is listed as if it were absent |
| Server.AdminSettings | supabase/functions/make-server-3b2037e0/index.tsx:515-543 | 401 unauthenticated, 403 exactly for non-admins, else the featured name and the user summaries |
| Server.AdminListsEveryUser | supabase/functions/make-server-3b2037e0/index.tsx:524-542 | in a valid store the admin list has one entry per registered name, in order, each naming its user |
| Server.Server.constructor | supabase/functions/make-server-3b2037e0/index.tsx:14 | an empty store that satisfies the invariant, with the configured passcode |
| Server.Server.Signup | supabase/functions/make-server-3b2037e0/index.tsx:77-141 | every check in source order with its status and message, no write on any refusal, and on success exactly the four signup writes and the returned user |
| Server.Server.UpdateProfile | supabase/functions/make-server-3b2037e0/index.tsx:245-264 | 401 without writing, else the pinned merge is stored and returned |
| Server.Server.Upload | supabase/functions/make-server-3b2037e0/index.tsx:272-343 | 401 / 400 'Invalid day' / 400 'No file provided' / 500 'Upload failed: …' without writing, else the record `{ id: now, path, url, uploadedAt }` is appended to the day's list |
| Server.Server.DeletePhoto | supabase/functions/make-server-3b2037e0/index.tsx:351-378 | 401 / 400 / 404 'Photo not found' without writing, else the records with the parsed id are removed and the path of the first one is returned for removal from storage |
| Server.Server.UpdateDayContent | supabase/functions/make-server-3b2037e0/index.tsx:444-462 | 401 / 400 without writing, else the stored content spread with the body is stored and returned |
| Server.Server.SetFeatured | supabase/functions/make-server-3b2037e0/index.tsx:550-571 | 401 / 403 / 400 'Username is required' / 404 without writing, else the normalised name becomes the featured creator |
| Server.Server.PublicProfile | supabase/functions/make-server-3b2037e0/index.tsx:386-420 | 404 'User not found' without a profile, else the public profile and exactly the eight days' re-signed photo lists |
| ValentinePage.GetEmbedUrl | src/app/components/ValentinePage.tsx:12-34 | `''` for an empty or unrecognised link; a `youtube.com/watch` link embeds its `v` parameter, `''` when it has none; a `youtu.be/` link embeds the text after the first `youtu.be/` up to the next `youtu.be/` and then the first `?`, `''` when that is empty; every embed URL ends in `?autoplay=1` |
| ValentinePage.SongEmbed | src/app/components/ValentinePage.tsx:151 | a string song field is embedded, anything else gives no player |
| ValentinePage.SpotifyRewrite | src/app/components/ValentinePage.tsx:16 | the two `.replace` calls, each rewriting only the first match; stated by `SpotifyEmbedShape` and `SpotifyTrackLink` |
| ValentinePage.SpotifyEmbedShape | src/app/components/ValentinePage.tsx:15-18 | a Spotify link embeds as its rewritten form up to the first `?`, plus `?autoplay=1` |
| ValentinePage.BeforeQuestion | src/app/components/ValentinePage.tsx:17 | `split('?')[0]` contains no `?` and is a prefix |
| ValentinePage.SpotifyTrackLink | src/app/components/ValentinePage.tsx:16-17 | a track link embeds as `/embed/track/` at the first `/track/` |
| ValentinePage.YoutuBeLink | src/app/components/ValentinePage.tsx:25-28 | `https://youtu.be/<id>?…` embeds as `https://www.youtube.com/embed/<id>?autoplay=1` |
| ValentinePage.YoutuBeRest | src/app/components/ValentinePage.tsx:26 | the id is the text after `youtu.be/` up to the first `?` |
| ValentinePage.YoutuBeEmptyId | src/app/components/ValentinePage.tsx:25-28 | a `youtu.be/` link whose id is empty (`?` or the end right after it) embeds nothing |
| ValentinePage.NormalizeRoute | src/app/components/ValentinePage.tsx:50-57 | a day is kept exactly when it is a valid path, with the path's user name or else `from`; otherwise both are empty |
| ValentinePage.RouteDayIsKnown | src/app/components/ValentinePage.tsx:59-60 | a kept day is always found in `VALENTINE_DAY_MAP` |
| ValentinePage.DisplayTitle | src/app/components/ValentinePage.tsx:147 | the saved title when truthy, else `Happy <day>!`; never blank |
| ValentinePage.DisplaySubtitle | src/app/components/ValentinePage.tsx:148 | the saved subtitle, else `For <partner>`, else 'Made with love'; never blank |
| ValentinePage.DisplayMessage | src/app/components/ValentinePage.tsx:149 | the custom message, else the profile's message, else the day's own; never blank for a day of the table |
| ValentinePage.DisplayQuote | src/app/components/ValentinePage.tsx:150 | shown exactly when a truthy quote is saved |
| ValentinePage.DisplayCta | src/app/components/ValentinePage.tsx:152 | the saved label, else 'Yes! 💕' |
| ValentinePage.PageState.constructor | src/app/components/ValentinePage.tsx:42-48 | the page starts empty and loading |
| ValentinePage.PageState.LoadPageData | src/app/components/ValentinePage.tsx:84-123 | 'Invalid page', 'Creator not found' or 'No featured creator configured for short links' leave the data as it was; otherwise the creator's or the featured creator's profile, content and that day's photos are shown; loading always ends |
| Dashboard.PhotosOf | src/app/components/Dashboard.tsx:115 | a day's list, `[]` when it has none |
| Dashboard.UploadCount | src/app/components/Dashboard.tsx:112-122 | with the limit `MaxPhotos` = 6: no file is sent for an empty selection or a full day; otherwise the first `min(selected, 6 - count)` files are sent |
| Dashboard.Uploaded | src/app/components/Dashboard.tsx:124-134 | each upload call adds at most one photo; the server's answer is given per call, so same-named files may fare differently |
| Dashboard.UploadedOne | src/app/components/Dashboard.tsx:124-134 | one file adds its photo when the upload call succeeds and nothing when it fails |
| Dashboard.UploadedConcat | src/app/components/Dashboard.tsx:124-134 | a batch's photos are those of its first part followed by those of the rest, whose calls come later |
| Dashboard.DeleteFromDay | src/app/components/Dashboard.tsx:145-150 | the day's list becomes the `filter` of the old one: no photo with the id remains, every other photo is kept as often as before, and `WithoutIdConcat` gives their order; other days are untouched |
| Dashboard.FormOf | src/app/components/Dashboard.tsx:160 | the day's form, `emptyDayForm` when it has none |
| Dashboard.UpdateDayField | src/app/components/Dashboard.tsx:188-196 | only the edited field of the edited day changes, starting from `emptyDayForm` |
| Dashboard.UpdateDayFieldLastWins | src/app/components/Dashboard.tsx:188-196 | two edits of one field leave the second value |
| Dashboard.DayForm | src/app/components/Dashboard.tsx:98 | the saved content wins over `emptyDayForm`, whose other fields stay |
| Dashboard.FormMap | src/app/components/Dashboard.tsx:102-105 | the `reduce` that stores each day's form under its path; stated by `FormMapShape` and `FormMapKeys` |
| Dashboard.LoadedForms | src/app/components/Dashboard.tsx:95-107 | the forms `loadUserData` builds for the eight days; stated by `LoadedFormsShape` and `LoadedFormsContent` |
| Dashboard.FormMapShape | src/app/components/Dashboard.tsx:102-105 | the `reduce` adds each day's path with that day's form |
| Dashboard.FormMapKeys | src/app/components/Dashboard.tsx:102-105 | the `reduce` from `{}` has one form per path of the table |
| Dashboard.LoadedFormsShape | src/app/components/Dashboard.tsx:95-107 | after loading there are exactly eight forms, one per lookup key |
| Dashboard.LoadedFormsContent | src/app/components/Dashboard.tsx:95-98 | each loaded form is the empty form overlaid with the content fetched for its day |
| Dashboard.LoadedFormsAreValidDays | src/app/components/Dashboard.tsx:95-107 | the loaded forms belong exactly to the valid day paths |
| Dashboard.DayFormOfNothing | src/app/components/Dashboard.tsx:98 | spreading empty content over `emptyDayForm` leaves it as it was |
| Dashboard.EmptyDayFormFields | src/app/components/Dashboard.tsx:41-49 | `emptyDayForm` has the seven content fields and none of them is truthy |
| Dashboard.EmptyContentLoadsEmptyForm | src/app/components/Dashboard.tsx:98 | a day without saved content loads as `emptyDayForm` |
| Dashboard.EmptyFormShowsDefaults | src/app/components/Dashboard.tsx:182 | previewing the empty form shows the day's greeting, the profile's or the day's message, 'Yes! 💕' and no song |
| Dashboard.NextClicks | src/app/components/Dashboard.tsx:198-211 | the counter resets to 0 exactly from 4, and stays within 0..4 |
| Dashboard.ClicksCycle | src/app/components/Dashboard.tsx:198-211 | from a fresh dashboard the counter reads `n % 5` after n clicks, and exactly every fifth click unlocks |
| Dashboard.DashboardState.constructor | src/app/components/Dashboard.tsx:66-70 | no photos, no forms, no clicks |
| Dashboard.DashboardState.LoadUserData | src/app/components/Dashboard.tsx:86-109 | nothing without a user name; else the public profile's photos when it was found, and the loaded forms |
| Dashboard.DashboardState.HandleImageUpload | src/app/components/Dashboard.tsx:111-143 | the allowed files are uploaded in order, and each returned photo is appended to that day only; a day with room ends with at most six photos and a full day is unchanged |
| Dashboard.DashboardState.HandleLogoClick | src/app/components/Dashboard.tsx:198-211 | unlocks exactly on the click that finds the counter at 4, which resets it, and otherwise counts up |

## Left out

- The auth provider's `createUser`, `getUser` and `signInWithPassword`, the blob store, and the signed-URL service are parameters of the members that use them. Their own behaviour is not modelled.
- Storage-bucket creation at startup and on upload (index.tsx 54-69, 289-302) is left out because it has no effect on the store or on any reply.
- The sign-in retry loop over `all_usernames` (index.tsx 187-202) and the choice of the 401 message are left out because both depend only on the provider's answer.
- `Server.SignInEmail`: models the email handed to the provider, not the provider's verdict on the password.
- `Date.now()` and `new Date().toISOString()` are parameters.
- The health endpoint, CORS, the logger, `Deno.serve` and the catch-all 500 replies for thrown exceptions are left out.
- The day table keeps each background image as its Unsplash photo id, and `ValentineDay.BgImage` rebuilds the URL with the prefix and size parameters that all eight entries share.
- `Text.Lower`: lower-cases only the ASCII letters. Non-ASCII case mapping of `toLowerCase` is not modelled.
- `Json.Truthy`: JSON values are scalars. Nested arrays and objects inside a profile or day content are not modelled. Numbers are integers, so JavaScript's floating point, and `NaN` in stored fields, are not modelled.
- The store's values are typed: text, name list, record or photo list. A key holding a value of another shape, which the source would read with JavaScript coercions, is not modelled.
- `Server.StoredEmail`: a non-string `email` field reads as absent.
- `Server.SignInUser`: omits `username` when the resolved name is `''`, where the source's `??` would send an empty string.
- `ValentinePage.GetEmbedUrl`: the `youtube.com/watch` branch reads the `v` parameter through the `watchId` parameter, because `new URL(...)` parsing is not modelled. A link on which `new URL` would throw is not distinguished.
- `ServerRules.AccessToken`: its contract states only the `X-User-Token` case. The `Authorization` fallback is stated by `ServerRules.BearerToken` for a token without spaces.
- `ValentinePage.PageState.LoadPageData`: the `null` profile before loading is modelled as `{}`.
- Page-visit effects are left out because they do not change the modelled state: `document.title`, confetti, timers, toasts, and the photo viewer's selection.
- The dashboard's `uploading` flag, the file-input reset, the help dialog and its `localStorage` flag, clipboard copy and navigation are left out because they touch only UI or browser storage.
- The dashboard's `handleSaveProfile` and `handleSaveDay` only call the server, which is modelled by `Server.Server.UpdateProfile` and `Server.Server.UpdateDayContent`.
- Concurrency between requests, and the asynchronous interleaving of the upload loop with other dashboard events, are not modelled. Each handler runs atomically.
- The React context that carries the requests (`AuthContext`) and the other UI components are not part of this model.
