/** The edge function's handlers over its key-value store. The store maps the keys
    `user_profile_<u>`, `user_id_<id>`, `email_<e>`, `all_usernames`, `photos_<u>_<day>`,
    `day_content_<u>_<day>` and `featured_username` to their values; every handler is one
    sequential read-modify-write on it. The identity provider, the blob store, the clock
    and the signed-URL service are parameters: each handler receives what they answered. */
module Server {
  import opened Optional
  import opened Json
  import opened Text
  import opened Photos
  import opened ServerRules

  /** A stored value: a string (an index entry or the featured name), the list of user
      names, a JSON record (a profile or a day's content), or a day's photo list. */
  datatype Value = Str(s: string) | Names(names: seq<string>) | Record(fields: Fields) | PhotoList(photos: seq<Photo>)

  type Store = map<string, Value>

  /** A handler's answer: the JSON body on success, or the HTTP status and error text. */
  datatype Reply<T> = Ok(value: T) | Err(status: nat, error: string)

  /** What the identity provider answered when asked to create an account. */
  datatype Attempt<T> = Done(value: T) | Failed(message: string)

  /** The identity provider's user: id, email and `user_metadata.username` (`''` when
      the metadata has none). */
  datatype AuthUser = AuthUser(id: string, email: string, metaUsername: string)

  /** `{ user, username, profile }` of a verified session. */
  datatype Identity = Identity(user: AuthUser, username: string, profile: Fields)

  /** The signup body; a missing field is `''`. */
  datatype SignupRequest = SignupRequest(
    username: string, password: string, email: string,
    partnerName: string, role: string, adminPasscode: string)

  /** The multipart `file` entry: its name, `''` when the file has none. */
  datatype FileInput = FileInput(name: string)

  /** `{ profile, photos }` of the public page. */
  datatype PublicView = PublicView(profile: Fields, photos: map<string, seq<Photo>>)

  /** `{ username, profile, dayContent, photos }` of the featured page. */
  datatype FeaturedView = FeaturedView(username: string, profile: Fields, dayContent: Fields, photos: seq<Photo>)

  /** `{ featuredUsername, users }` of the admin settings. */
  datatype AdminView = AdminView(featuredUsername: string, users: seq<Fields>)

  // ----- keys -----

  function ProfileKey(u: string): (k: string)
    ensures |k| == 13 + |u| && k[0] == 'u' && k[5] == 'p' && k[13..] == u
  {
    "user_profile_" + u
  }

  function UserIdKey(id: string): (k: string)
    ensures |k| > 5 && k[0] == 'u' && k[5] == 'i'
  {
    "user_id_" + id
  }

  function EmailKey(e: string): (k: string)
    ensures |k| > 0 && k[0] == 'e'
  {
    "email_" + e
  }

  function PhotosKey(u: string, day: string): (k: string)
    ensures |k| > 0 && k[0] == 'p'
  {
    "photos_" + u + "_" + day
  }

  function DayContentKey(u: string, day: string): (k: string)
    ensures |k| > 0 && k[0] == 'd'
  {
    "day_content_" + u + "_" + day
  }

  const AllUsernamesKey: string := "all_usernames"
  const FeaturedKey: string := "featured_username"

  // ----- typed reads -----

  /** `await kv.get(key)` as a string; `''` when absent. */
  function TextAt(kv: Store, key: string): (r: string)
    ensures key in kv && kv[key].Str? ==> r == kv[key].s
    ensures key !in kv ==> r == ""
  {
    if key in kv && kv[key].Str? then kv[key].s else ""
  }

  /** `Array.isArray(raw) ? raw : []`. */
  function NamesAt(kv: Store, key: string): (r: seq<string>)
    ensures key in kv && kv[key].Names? ==> r == kv[key].names
    ensures key !in kv ==> r == []
  {
    if key in kv && kv[key].Names? then kv[key].names else []
  }

  /** `await kv.get(key) || []`. */
  function PhotosAt(kv: Store, key: string): (r: seq<Photo>)
    ensures key in kv && kv[key].PhotoList? ==> r == kv[key].photos
    ensures key !in kv ==> r == []
  {
    if key in kv && kv[key].PhotoList? then kv[key].photos else []
  }

  /** `await kv.get(key) || {}`. */
  function RecordAt(kv: Store, key: string): (r: Fields)
    ensures key in kv && kv[key].Record? ==> r == kv[key].fields
    ensures key !in kv ==> r == map[]
  {
    if key in kv && kv[key].Record? then kv[key].fields else map[]
  }

  // ----- the store's invariant -----

  /** Every profile belongs to a non-empty name and is a record whose `username` is that
      name. */
  ghost predicate ProfilesNamed(kv: Store) {
    forall u :: ProfileKey(u) in kv ==>
      u != "" && kv[ProfileKey(u)].Record? && "username" in kv[ProfileKey(u)].fields
      && kv[ProfileKey(u)].fields["username"] == FStr(u)
  }

  /** `user_id_<id>` and `email_<e>` hold a user name that has a profile. */
  ghost predicate IndicesResolve(kv: Store) {
    && (forall id :: UserIdKey(id) in kv ==>
          kv[UserIdKey(id)].Str? && ProfileKey(kv[UserIdKey(id)].s) in kv)
    && (forall e :: EmailKey(e) in kv ==>
          kv[EmailKey(e)].Str? && ProfileKey(kv[EmailKey(e)].s) in kv)
  }

  /** Photo keys hold photo lists and day-content keys hold records. */
  ghost predicate ContentKinds(kv: Store) {
    && (forall u, d :: PhotosKey(u, d) in kv ==> kv[PhotosKey(u, d)].PhotoList?)
    && (forall u, d :: DayContentKey(u, d) in kv ==> kv[DayContentKey(u, d)].Record?)
  }

  predicate Distinct(names: seq<string>) {
    forall i, j :: 0 <= i < j < |names| ==> names[i] != names[j]
  }

  /** `all_usernames` is a list without repeats, each of whose names has a profile. */
  ghost predicate UsernameList(kv: Store) {
    AllUsernamesKey in kv ==>
      && kv[AllUsernamesKey].Names?
      && Distinct(kv[AllUsernamesKey].names)
      && forall i :: 0 <= i < |kv[AllUsernamesKey].names| ==> ProfileKey(kv[AllUsernamesKey].names[i]) in kv
  }

  /** `featured_username`, once set, is a non-empty name that has a profile. */
  ghost predicate FeaturedResolves(kv: Store) {
    FeaturedKey in kv ==>
      kv[FeaturedKey].Str? && kv[FeaturedKey].s != "" && ProfileKey(kv[FeaturedKey].s) in kv
  }

  ghost predicate ValidStore(kv: Store) {
    ProfilesNamed(kv) && IndicesResolve(kv) && ContentKinds(kv) && UsernameList(kv) && FeaturedResolves(kv)
  }

  /** Writing a profile whose `username` is its key's name keeps the store valid. */
  lemma ProfileWriteValid(kv: Store, u: string, profile: Fields)
    requires ValidStore(kv) && u != ""
    requires "username" in profile && profile["username"] == FStr(u)
    ensures ValidStore(kv[ProfileKey(u) := Record(profile)])
  {
    var kv' := kv[ProfileKey(u) := Record(profile)];
    forall v | ProfileKey(v) in kv'
      ensures kv'[ProfileKey(v)].Record? && "username" in kv'[ProfileKey(v)].fields
        && kv'[ProfileKey(v)].fields["username"] == FStr(v)
    {
      if ProfileKey(v) == ProfileKey(u) {
        assert v == ProfileKey(v)[13..] == ProfileKey(u)[13..] == u;
      }
    }
  }

  lemma PhotosWriteValid(kv: Store, u: string, day: string, photos: seq<Photo>)
    requires ValidStore(kv)
    ensures ValidStore(kv[PhotosKey(u, day) := PhotoList(photos)])
  {
  }

  lemma ContentWriteValid(kv: Store, u: string, day: string, content: Fields)
    requires ValidStore(kv)
    ensures ValidStore(kv[DayContentKey(u, day) := Record(content)])
  {
  }

  lemma FeaturedWriteValid(kv: Store, name: string)
    requires ValidStore(kv) && name != "" && ProfileKey(name) in kv
    ensures ValidStore(kv[FeaturedKey := Str(name)])
  {
  }

  // ----- identity -----

  /** `kv.get(`user_id_${id}`)` first, then `user_metadata.username`: how both the session
      check and sign-in find the caller's name (`''` when neither has one). */
  function ResolveUsername(kv: Store, user: AuthUser): (r: string)
    ensures TextAt(kv, UserIdKey(user.id)) != "" ==> r == TextAt(kv, UserIdKey(user.id))
    ensures TextAt(kv, UserIdKey(user.id)) == "" ==> r == user.metaUsername
  {
    var indexed := TextAt(kv, UserIdKey(user.id));
    if indexed != "" then indexed else user.metaUsername
  }

  /** `getAuthenticatedIdentity`: `session` is what the provider's `getUser` answered for
      the token. No token is `Unauthorized`; an unknown session or one without a user name
      is `Invalid session`; otherwise the identity carries the stored profile or `{}`. */
  function Authenticate(kv: Store, token: string, session: Option<AuthUser>): (r: Reply<Identity>)
    ensures r.Err? ==> r.status == 401
    ensures token == "" ==> r == Err(401, "Unauthorized")
    ensures token != "" && r.Err? ==> r.error == "Invalid session"
    ensures r.Ok? <==> token != "" && session.Some? && ResolveUsername(kv, session.value) != ""
    ensures r.Ok? ==>
      && r.value.user == session.value
      && r.value.username == ResolveUsername(kv, session.value)
      && r.value.profile == RecordAt(kv, ProfileKey(r.value.username))
  {
    if token == "" then Err(401, "Unauthorized")
    else if session.None? then Err(401, "Invalid session")
    else
      var username := ResolveUsername(kv, session.value);
      if username == "" then Err(401, "Invalid session")
      else Ok(Identity(session.value, username, RecordAt(kv, ProfileKey(username))))
  }

  /** A session whose id is indexed resolves, in a valid store, to the indexed name, and
      its profile is that user's own record. */
  lemma IndexedSessionHasProfile(kv: Store, token: string, user: AuthUser)
    requires ValidStore(kv) && token != "" && UserIdKey(user.id) in kv
    ensures var a := Authenticate(kv, token, Some(user));
      && a.Ok?
      && a.value.username == kv[UserIdKey(user.id)].s
      && ProfileKey(a.value.username) in kv
      && a.value.profile["username"] == FStr(a.value.username)
  {
    var name := kv[UserIdKey(user.id)].s;
    assert ProfileKey(name) in kv;
  }

  /** `(identity.profile?.role || 'member') !== 'admin'` is the 403 test. */
  predicate IsAdmin(identity: Identity) {
    FieldOr(identity.profile, "role", FStr("member")) == FStr("admin")
  }

  /** Only a stored role of exactly `'admin'` opens the admin handlers: a missing or falsy
      role counts as `'member'`. */
  lemma AdminNeedsStoredRole(identity: Identity)
    ensures IsAdmin(identity) <==>
      "role" in identity.profile && identity.profile["role"] == FStr("admin")
  {
  }

  // ----- signup -----

  predicate Filled(req: SignupRequest) {
    req.username != "" && req.password != "" && req.email != ""
  }

  /** The profile record written at signup. */
  function NewProfile(username: string, email: string, userId: string, role: string,
                      partnerName: string, createdAt: string): (r: Fields)
    ensures r.Keys == {"username", "email", "userId", "role", "partnerName", "message", "createdAt"}
    ensures r["username"] == FStr(username) && r["email"] == FStr(email) && r["userId"] == FStr(userId)
    ensures r["role"] == FStr(role) && r["message"] == FStr("")
  {
    map["username" := FStr(username), "email" := FStr(email), "userId" := FStr(userId),
        "role" := FStr(role), "partnerName" := FStr(partnerName), "message" := FStr(""),
        "createdAt" := FStr(createdAt)]
  }

  /** The store after a successful signup: the profile, both indices, and the name
      appended to `all_usernames` unless it is already listed. */
  function Registered(kv: Store, profile: Fields, username: string, userId: string, email: string): Store {
    var kv' := kv[ProfileKey(username) := Record(profile)][UserIdKey(userId) := Str(username)][EmailKey(email) := Str(username)];
    var users := NamesAt(kv', AllUsernamesKey);
    if username in users then kv' else kv'[AllUsernamesKey := Names(users + [username])]
  }

  /** Signup keeps the store valid. */
  lemma RegisteredValid(kv: Store, profile: Fields, username: string, userId: string, email: string)
    requires ValidStore(kv) && username != ""
    requires "username" in profile && profile["username"] == FStr(username)
    ensures ValidStore(Registered(kv, profile, username, userId, email))
  {
    var kv1 := kv[ProfileKey(username) := Record(profile)];
    ProfileWriteValid(kv, username, profile);
    var kv2 := kv1[UserIdKey(userId) := Str(username)];
    assert ValidStore(kv2);
    var kv3 := kv2[EmailKey(email) := Str(username)];
    assert ValidStore(kv3);
    var users := NamesAt(kv3, AllUsernamesKey);
    if username !in users {
      var kv4 := kv3[AllUsernamesKey := Names(users + [username])];
      assert forall i :: 0 <= i < |users| ==> ProfileKey(users[i]) in kv3;
      assert UsernameList(kv4);
    }
  }

  /** `all_usernames` after a signup: the old list, with the new name appended at the end
      when it was absent. Names already listed keep their place, and the new name is
      listed once. */
  lemma RegisteredLists(kv: Store, profile: Fields, username: string, userId: string, email: string)
    requires ValidStore(kv)
    ensures var before := NamesAt(kv, AllUsernamesKey);
      var after := NamesAt(Registered(kv, profile, username, userId, email), AllUsernamesKey);
      && (username in before ==> after == before)
      && (username !in before ==> after == before + [username])
      && Distinct(after)
  {
    var kv3 := kv[ProfileKey(username) := Record(profile)][UserIdKey(userId) := Str(username)][EmailKey(email) := Str(username)];
    var before := NamesAt(kv, AllUsernamesKey);
    assert NamesAt(kv3, AllUsernamesKey) == before;
    assert Distinct(before);
    if username !in before {
      var after := before + [username];
      forall i, j | 0 <= i < j < |after| ensures after[i] != after[j] {
        if j == |before| {
          assert after[i] == before[i];
        }
      }
    }
  }

  /** The keys a signup writes; every other key keeps its value. */
  lemma RegisteredTouches(kv: Store, profile: Fields, username: string, userId: string, email: string, k: string)
    requires k != ProfileKey(username) && k != UserIdKey(userId) && k != EmailKey(email) && k != AllUsernamesKey
    ensures k in Registered(kv, profile, username, userId, email) <==> k in kv
    ensures k in kv ==> Registered(kv, profile, username, userId, email)[k] == kv[k]
  {
  }

  // ----- profile update -----

  /** `{ ...currentProfile, ...updates, username, userId, role: currentProfile.role || 'member' }`. */
  function UpdatedProfile(current: Fields, updates: Fields, username: string, userId: string): (r: Fields)
    ensures r.Keys == current.Keys + updates.Keys + {"username", "userId", "role"}
    ensures r["username"] == FStr(username) && r["userId"] == FStr(userId)
    ensures r["role"] == FieldOr(current, "role", FStr("member"))
    ensures forall k :: k in updates && k !in {"username", "userId", "role"} ==> r[k] == updates[k]
    ensures forall k :: k in current && k !in updates && k !in {"username", "userId", "role"} ==> r[k] == current[k]
  {
    Merge(Merge(current, updates),
          map["username" := FStr(username), "userId" := FStr(userId), "role" := FieldOr(current, "role", FStr("member"))])
  }

  /** A profile update never makes anyone an admin: the role after it is `'admin'` only if
      the stored role already was, whatever the request body holds. */
  lemma UpdateCannotGrantAdmin(current: Fields, updates: Fields, username: string, userId: string)
    ensures UpdatedProfile(current, updates, username, userId)["role"] == FStr("admin") ==>
      "role" in current && current["role"] == FStr("admin")
  {
  }

  /** Sending the same update twice gives the same profile as sending it once. */
  lemma UpdateIdempotent(current: Fields, updates: Fields, username: string, userId: string)
    ensures var once := UpdatedProfile(current, updates, username, userId);
      UpdatedProfile(once, updates, username, userId) == once
  {
    var once := UpdatedProfile(current, updates, username, userId);
    var twice := UpdatedProfile(once, updates, username, userId);
    assert FieldOr(once, "role", FStr("member")) == once["role"];
    assert twice.Keys == once.Keys;
  }

  // ----- sign-in -----

  /** `profile?.email` when it is a non-empty string, else `''`. */
  function StoredEmail(profile: Fields): (r: string)
    ensures "email" in profile && profile["email"].FStr? ==> r == profile["email"].s
    ensures !("email" in profile && profile["email"].FStr?) ==> r == ""
  {
    if "email" in profile && profile["email"].FStr? then profile["email"].s else ""
  }

  /** The identifier sign-in works with: `(identifier || email || '')` normalised like a
      signup user name. */
  function LoginIdentifier(identifier: string, email: string): string {
    NormalizeUsername(if identifier != "" then identifier else email)
  }

  /** The email stored in the profile that the `email_` index names for `e`: `''` when the
      index is empty or the profile holds no email. */
  function IndexedEmail(kv: Store, e: string): string {
    var byEmail := TextAt(kv, EmailKey(e));
    if byEmail != "" then StoredEmail(RecordAt(kv, ProfileKey(byEmail))) else ""
  }

  /** The email sign-in hands to the provider. An identifier with `@` is an email: its
      `email_` index leads to the stored email when there is one, otherwise the identifier
      itself is used. Any other identifier is a user name, whose profile must hold an
      email (401 otherwise). */
  function SignInEmail(kv: Store, identifier: string, email: string, password: string): (r: Reply<string>)
    ensures var id := LoginIdentifier(identifier, email);
      && (id == "" || password == "" <==> r == Err(400, "Username/email and password are required"))
      && (r == Err(401, "Invalid credentials") <==>
            id != "" && password != "" && !IsEmail(id) && StoredEmail(RecordAt(kv, ProfileKey(id))) == "")
      && (r.Ok? ==> r.value != "")
      && (id != "" && password != "" && IsEmail(id) && IndexedEmail(kv, id) != "" ==> r == Ok(IndexedEmail(kv, id)))
      && (id != "" && password != "" && IsEmail(id) && IndexedEmail(kv, id) == "" ==> r == Ok(id))
      && (r.Ok? && !IsEmail(id) ==> r.value == StoredEmail(RecordAt(kv, ProfileKey(id))))
  {
    var id := LoginIdentifier(identifier, email);
    if id == "" || password == "" then Err(400, "Username/email and password are required")
    else if IsEmail(id) then
      var stored := IndexedEmail(kv, id);
      if stored != "" then Ok(stored) else Ok(id)
    else
      var stored := StoredEmail(RecordAt(kv, ProfileKey(id)));
      if stored == "" then Err(401, "Invalid credentials") else Ok(stored)
  }

  /** Signing in by email hands the provider the email as it was stored, not as it was
      typed: when the `email_` index leads to a profile whose email differs from the typed
      one only in letter case (`A@x.com` for `a@x.com`), the stored spelling is used. */
  lemma SignInKeepsStoredCase(kv: Store, typed: string, user: string, stored: string, password: string)
    requires password != "" && user != ""
    requires NoSpace(typed) && NoUpper(typed) && IsEmail(typed)
    requires Lower(stored) == typed && stored != typed
    requires TextAt(kv, EmailKey(typed)) == user
    requires StoredEmail(RecordAt(kv, ProfileKey(user))) == stored
    ensures SignInEmail(kv, "", typed, password) == Ok(stored)
    ensures SignInEmail(kv, "", typed, password) != Ok(typed)
  {
    EmailIsOwnIdentifier(typed);
    assert |stored| == |typed| > 0;
    SignInByEmail(kv, user, typed, stored, password);
  }

  /** A name without white space or capitals is its own normal form. */
  lemma NormalizedIsFixed(s: string)
    requires NoSpace(s) && NoUpper(s)
    ensures NormalizeUsername(s) == s
  {
    NormalizeUsernameShape(s);
    LowerOfLower(s);
  }

  /** After a signup, signing in by the user name (typed in any letter case and with
      stray spaces) or by the registered email hands the registered email to the
      provider. */
  lemma SignInAfterSignup(kv: Store, rawName: string, rawEmail: string, userId: string, role: string,
                          partnerName: string, createdAt: string, password: string)
    requires password != ""
    requires !IsEmail(NormalizeUsername(rawName)) && NormalizeUsername(rawName) != ""
    requires NoSpace(NormalizeEmail(rawEmail)) && IsEmail(NormalizeEmail(rawEmail))
    ensures var u := NormalizeUsername(rawName);
      var e := NormalizeEmail(rawEmail);
      var kv' := Registered(kv, NewProfile(u, e, userId, role, partnerName, createdAt), u, userId, e);
      && SignInEmail(kv', rawName, "", password) == Ok(e)
      && SignInEmail(kv', "", e, password) == Ok(e)
  {
    var u := NormalizeUsername(rawName);
    var e := NormalizeEmail(rawEmail);
    var profile := NewProfile(u, e, userId, role, partnerName, createdAt);
    RegisteredReads(kv, profile, u, userId, e);
    assert StoredEmail(profile) == e;
    SignInWithStored(Registered(kv, profile, u, userId, e), rawName, u, e, password);
  }

  /** Sign-in by name and by email both reach `e` in any store whose profile for `u` holds
      `e` and whose email index for `e` names `u`. */
  lemma SignInWithStored(kv: Store, rawName: string, u: string, e: string, password: string)
    requires NormalizeUsername(rawName) == u && u != "" && !IsEmail(u) && password != ""
    requires TextAt(kv, EmailKey(e)) == u && StoredEmail(RecordAt(kv, ProfileKey(u))) == e
    requires NoSpace(e) && NoUpper(e) && IsEmail(e)
    ensures SignInEmail(kv, rawName, "", password) == Ok(e)
    ensures SignInEmail(kv, "", e, password) == Ok(e)
  {
    EmailIsOwnIdentifier(e);
    SignInByEmail(kv, u, e, e, password);
    SignInByName(kv, rawName, u, e, password);
  }

  /** An email without white space or capitals is its own sign-in identifier. */
  lemma EmailIsOwnIdentifier(e: string)
    requires NoSpace(e) && NoUpper(e)
    ensures LoginIdentifier("", e) == e
  {
    NormalizedIsFixed(e);
  }

  /** A signup's profile and email index can be read back from the new store. */
  lemma RegisteredReads(kv: Store, profile: Fields, username: string, userId: string, email: string)
    ensures var kv' := Registered(kv, profile, username, userId, email);
      && RecordAt(kv', ProfileKey(username)) == profile
      && TextAt(kv', EmailKey(email)) == username
  {
  }

  lemma SignInByName(kv: Store, rawName: string, u: string, e: string, password: string)
    requires NormalizeUsername(rawName) == u && u != "" && !IsEmail(u) && password != ""
    requires StoredEmail(RecordAt(kv, ProfileKey(u))) == e && e != ""
    ensures SignInEmail(kv, rawName, "", password) == Ok(e)
  {
    assert LoginIdentifier(rawName, "") == u;
  }

  lemma SignInByEmail(kv: Store, u: string, e: string, stored: string, password: string)
    requires TextAt(kv, EmailKey(e)) == u && u != "" && password != ""
    requires StoredEmail(RecordAt(kv, ProfileKey(u))) == stored && stored != ""
    requires IsEmail(e) && LoginIdentifier("", e) == e
    ensures SignInEmail(kv, "", e, password) == Ok(stored)
  {
    var id := LoginIdentifier("", e);
    assert id == e && IsEmail(id) && id != "";
    assert IndexedEmail(kv, id) == stored;
  }

  /** What sign-in returns as `user` once the provider accepted the password: the stored
      profile of the resolved name, else `{ username, email }` from the provider. */
  function SignInUser(kv: Store, user: AuthUser): (r: Fields)
    ensures var name := ResolveUsername(kv, user);
      && (name != "" && ProfileKey(name) in kv ==> r == RecordAt(kv, ProfileKey(name)))
      && (!(name != "" && ProfileKey(name) in kv) ==>
            && "email" in r && r["email"] == FStr(user.email)
            && ("username" in r <==> name != "")
            && (name != "" ==> r["username"] == FStr(name)))
  {
    var name := ResolveUsername(kv, user);
    if name != "" && ProfileKey(name) in kv then RecordAt(kv, ProfileKey(name))
    else if name != "" then map["username" := FStr(name), "email" := FStr(user.email)]
    else map["email" := FStr(user.email)]
  }

  // ----- read-only handlers -----

  /** `GET /user`: the identity's profile. `{}` is truthy, so a caller without a profile
      gets `{}` and never the `{ username, email }` fallback. */
  function GetUser(kv: Store, token: string, session: Option<AuthUser>): (r: Reply<Fields>)
    ensures var a := Authenticate(kv, token, session);
      && (a.Err? ==> r == Err(401, a.error))
      && (a.Ok? ==> r == Ok(RecordAt(kv, ProfileKey(a.value.username))))
  {
    match Authenticate(kv, token, session)
    case Err(_, msg) => Err(401, msg)
    case Ok(identity) => Ok(identity.profile)
  }

  /** `GET /day-content/:username/:day`: the stored record, `{}` when nothing was written.
      The day is not checked. */
  function DayContent(kv: Store, username: string, day: string): (r: Fields)
    ensures DayContentKey(username, day) !in kv ==> r == map[]
    ensures DayContentKey(username, day) in kv && kv[DayContentKey(username, day)].Record? ==>
      r == kv[DayContentKey(username, day)].fields
  {
    RecordAt(kv, DayContentKey(username, day))
  }

  /** The keys of `obj` among `keys`, as `{ a: obj.a, ... }` writes them (an undefined
      field is left out of the JSON). */
  function Pick(obj: Fields, keys: set<string>): (r: Fields)
    ensures r.Keys == obj.Keys * keys
    ensures forall k :: k in r ==> r[k] == obj[k]
  {
    map k | k in obj && k in keys :: obj[k]
  }

  /** `{ username, role: role || 'member', partnerName, message }`, the profile the public
      and featured pages show. */
  function PublicSummary(profile: Fields): (r: Fields)
    ensures r.Keys <= {"username", "role", "partnerName", "message"}
    ensures "role" in r && r["role"] == FieldOr(profile, "role", FStr("member"))
    ensures forall k :: k in {"username", "partnerName", "message"} && k in profile ==> k in r && r[k] == profile[k]
  {
    Pick(profile, {"username", "partnerName", "message"})["role" := FieldOr(profile, "role", FStr("member"))]
  }

  /** The public pages never expose the email, the provider id or the creation date, and in
      a valid store they name the user whose key was asked for. */
  lemma PublicSummaryIsPublic(kv: Store, username: string)
    requires ValidStore(kv) && ProfileKey(username) in kv
    ensures var r := PublicSummary(RecordAt(kv, ProfileKey(username)));
      "email" !in r && "userId" !in r && "createdAt" !in r && r["username"] == FStr(username)
  {
  }

  /** `GET /featured/:day`. */
  function FeaturedPage(kv: Store, day: string, signer: string -> Option<string>): (r: Reply<FeaturedView>)
    ensures var name := TextAt(kv, FeaturedKey);
      && (!IsValidDay(day) ==> r == Err(400, "Invalid day"))
      && (IsValidDay(day) && name == "" ==> r == Err(404, "No featured creator configured"))
      && (IsValidDay(day) && name != "" && ProfileKey(name) !in kv ==> r == Err(404, "Featured creator not found"))
      && (r.Ok? <==> IsValidDay(day) && name != "" && ProfileKey(name) in kv)
      && (r.Ok? ==>
            && r.value.username == name
            && r.value.profile == PublicSummary(RecordAt(kv, ProfileKey(name)))
            && r.value.dayContent == DayContent(kv, name, day)
            && r.value.photos == RefreshAll(PhotosAt(kv, PhotosKey(name, day)), signer))
  {
    if !IsValidDay(day) then Err(400, "Invalid day")
    else
      var name := TextAt(kv, FeaturedKey);
      if name == "" then Err(404, "No featured creator configured")
      else if ProfileKey(name) !in kv then Err(404, "Featured creator not found")
      else Ok(FeaturedView(name, PublicSummary(RecordAt(kv, ProfileKey(name))), DayContent(kv, name, day),
                           RefreshAll(PhotosAt(kv, PhotosKey(name, day)), signer)))
  }

  /** In a valid store the featured page is refused only for a bad day or when no creator
      is set; once an admin set a creator, every valid day shows that creator. */
  lemma FeaturedPageResolves(kv: Store, name: string, day: string, signer: string -> Option<string>)
    requires ValidStore(kv) && IsValidDay(day)
    ensures FeaturedPage(kv, day, signer).Err? ==> FeaturedPage(kv, day, signer) == Err(404, "No featured creator configured")
    ensures name != "" && ProfileKey(name) in kv ==>
      var r := FeaturedPage(kv[FeaturedKey := Str(name)], day, signer);
      r.Ok? && r.value.username == name
  {
    if name != "" && ProfileKey(name) in kv {
      var kv' := kv[FeaturedKey := Str(name)];
      assert TextAt(kv', FeaturedKey) == name;
      assert ProfileKey(name) in kv';
    }
  }

  /** `{ username, role || 'member', partnerName || '', createdAt || '' }` per listed user. */
  function AdminSummary(profile: Fields): (r: Fields)
    ensures r.Keys == ({"username"} * profile.Keys) + {"role", "partnerName", "createdAt"}
    ensures "username" in profile ==> r["username"] == profile["username"]
    ensures r["role"] == FieldOr(profile, "role", FStr("member"))
    ensures r["partnerName"] == FieldOr(profile, "partnerName", FStr(""))
    ensures r["createdAt"] == FieldOr(profile, "createdAt", FStr(""))
  {
    Pick(profile, {"username"})["role" := FieldOr(profile, "role", FStr("member"))]
      ["partnerName" := FieldOr(profile, "partnerName", FStr(""))]
      ["createdAt" := FieldOr(profile, "createdAt", FStr(""))]
  }

  /** `(await Promise.all(usernames.map(...))).filter(Boolean)`: one summary per listed name
      that has a profile, in list order. */
  function UserSummaries(kv: Store, names: seq<string>): (r: seq<Fields>)
    ensures |r| <= |names|
    ensures (forall i :: 0 <= i < |names| ==> ProfileKey(names[i]) in kv) ==>
      |r| == |names| && forall i :: 0 <= i < |names| ==> r[i] == AdminSummary(RecordAt(kv, ProfileKey(names[i])))
  {
    if names == [] then []
    else
      var rest := UserSummaries(kv, names[1..]);
      if ProfileKey(names[0]) in kv then [AdminSummary(RecordAt(kv, ProfileKey(names[0])))] + rest else rest
  }

  /** One listed name: its summary when it has a profile, nothing when it has none. */
  lemma UserSummariesOne(kv: Store, name: string)
    ensures ProfileKey(name) in kv ==> UserSummaries(kv, [name]) == [AdminSummary(RecordAt(kv, ProfileKey(name)))]
    ensures ProfileKey(name) !in kv ==> UserSummaries(kv, [name]) == []
  {
    assert [name][1..] == [];
  }

  /** The listing works name by name: it distributes over concatenation, so a name without
      a profile is skipped wherever it stands and the other summaries keep their order. */
  lemma {:induction false} UserSummariesConcat(kv: Store, a: seq<string>, b: seq<string>)
    ensures UserSummaries(kv, a + b) == UserSummaries(kv, a) + UserSummaries(kv, b)
  {
    if a == [] {
      assert a + b == b;
    } else {
      assert (a + b)[0] == a[0] && (a + b)[1..] == a[1..] + b;
      UserSummariesConcat(kv, a[1..], b);
    }
  }

  /** A name without a profile drops out of the listing and nothing else changes. */
  lemma UserSummariesSkip(kv: Store, names: seq<string>, i: nat)
    requires i < |names| && ProfileKey(names[i]) !in kv
    ensures UserSummaries(kv, names) == UserSummaries(kv, names[..i] + names[i + 1..])
  {
    assert names == names[..i] + ([names[i]] + names[i + 1..]);
    UserSummariesConcat(kv, names[..i], [names[i]] + names[i + 1..]);
    UserSummariesConcat(kv, [names[i]], names[i + 1..]);
    UserSummariesOne(kv, names[i]);
    UserSummariesConcat(kv, names[..i], names[i + 1..]);
  }

  /** `GET /admin/settings`. */
  function AdminSettings(kv: Store, token: string, session: Option<AuthUser>): (r: Reply<AdminView>)
    ensures var a := Authenticate(kv, token, session);
      && (a.Err? ==> r == Err(401, a.error))
      && (a.Ok? && !IsAdmin(a.value) ==> r == Err(403, "Forbidden"))
      && (r.Ok? <==> a.Ok? && IsAdmin(a.value))
      && (r.Ok? ==> r.value == AdminView(TextAt(kv, FeaturedKey), UserSummaries(kv, NamesAt(kv, AllUsernamesKey))))
  {
    match Authenticate(kv, token, session)
    case Err(_, msg) => Err(401, msg)
    case Ok(identity) =>
      if !IsAdmin(identity) then Err(403, "Forbidden")
      else Ok(AdminView(TextAt(kv, FeaturedKey), UserSummaries(kv, NamesAt(kv, AllUsernamesKey))))
  }

  /** In a valid store the admin listing has one entry per registered name, in registration
      order, each naming its user. */
  lemma AdminListsEveryUser(kv: Store)
    requires ValidStore(kv)
    ensures var names := NamesAt(kv, AllUsernamesKey);
      var users := UserSummaries(kv, names);
      |users| == |names| && forall i :: 0 <= i < |names| ==> users[i]["username"] == FStr(names[i])
  {
  }

  // ----- the server -----

  class Server {
    /** The key-value store. */
    var kv: Store
    /** `ADMIN_PASSCODE`, `''` when unset. */
    const adminPasscode: string

    ghost predicate Valid()
      reads this
    {
      ValidStore(kv)
    }

    constructor(passcode: string)
      ensures kv == map[] && adminPasscode == passcode && Valid()
    {
      kv := map[];
      adminPasscode := passcode;
    }

    /** `POST /signup`. The checks run in the source's order and every refusal leaves the
        store as it was; `created` is the provider's answer to `createUser`. */
    method Signup(req: SignupRequest, created: Attempt<string>, createdAt: string) returns (r: Reply<Fields>)
      requires Valid()
      modifies this
      ensures Valid()
      ensures r.Err? ==> kv == old(kv)
      ensures !Filled(req) ==> r == Err(400, "Username, password, and email are required")
      ensures Filled(req) && NormalizeUsername(req.username) == "" ==> r == Err(400, "Username is invalid")
      ensures (Filled(req) && NormalizeUsername(req.username) != ""
               && SignupRole(req.role, req.adminPasscode, adminPasscode).None?) ==>
        r == Err(403, "Invalid admin passcode")
      ensures (Filled(req) && NormalizeUsername(req.username) != ""
               && SignupRole(req.role, req.adminPasscode, adminPasscode).Some?
               && ProfileKey(NormalizeUsername(req.username)) in old(kv)) ==>
        r == Err(409, "Username already taken")
      ensures (Filled(req) && NormalizeUsername(req.username) != ""
               && SignupRole(req.role, req.adminPasscode, adminPasscode).Some?
               && ProfileKey(NormalizeUsername(req.username)) !in old(kv) && created.Failed?) ==>
        r == Err(400, created.message)
      ensures r.Ok? <==>
        (Filled(req) && NormalizeUsername(req.username) != ""
         && SignupRole(req.role, req.adminPasscode, adminPasscode).Some?
         && ProfileKey(NormalizeUsername(req.username)) !in old(kv) && created.Done?)
      ensures r.Ok? ==>
        var u := NormalizeUsername(req.username);
        var e := NormalizeEmail(req.email);
        var role := SignupRole(req.role, req.adminPasscode, adminPasscode).value;
        && kv == Registered(old(kv), NewProfile(u, e, created.value, role, req.partnerName, createdAt), u, created.value, e)
        && r.value == map["username" := FStr(u), "email" := FStr(e), "partnerName" := FStr(req.partnerName), "role" := FStr(role)]
    {
      if !Filled(req) {
        return Err(400, "Username, password, and email are required");
      }
      var username := NormalizeUsername(req.username);
      if username == "" {
        return Err(400, "Username is invalid");
      }
      var email := NormalizeEmail(req.email);
      var role := SignupRole(req.role, req.adminPasscode, adminPasscode);
      if role.None? {
        return Err(403, "Invalid admin passcode");
      }
      if ProfileKey(username) in kv {
        return Err(409, "Username already taken");
      }
      if created.Failed? {
        return Err(400, created.message);
      }
      var userId := created.value;
      var profile := NewProfile(username, email, userId, role.value, req.partnerName, createdAt);
      RegisteredValid(kv, profile, username, userId, email);
      kv := kv[ProfileKey(username) := Record(profile)];
      kv := kv[UserIdKey(userId) := Str(username)];
      kv := kv[EmailKey(email) := Str(username)];
      var users := NamesAt(kv, AllUsernamesKey);
      if username !in users {
        users := users + [username];
        kv := kv[AllUsernamesKey := Names(users)];
      }
      r := Ok(map["username" := FStr(username), "email" := FStr(email),
                  "partnerName" := FStr(req.partnerName), "role" := FStr(role.value)]);
    }

    /** `PUT /profile`: the stored profile (or `{}`) overlaid with the body, with the name,
        the provider id and the stored role pinned. */
    method UpdateProfile(token: string, session: Option<AuthUser>, updates: Fields) returns (r: Reply<Fields>)
      requires Valid()
      modifies this
      ensures Valid()
      ensures var a := Authenticate(old(kv), token, session);
        && (a.Err? ==> r == Err(401, a.error) && kv == old(kv))
        && (a.Ok? ==>
              && r == Ok(UpdatedProfile(a.value.profile, updates, a.value.username, a.value.user.id))
              && kv == old(kv)[ProfileKey(a.value.username) := Record(r.value)])
    {
      var a := Authenticate(kv, token, session);
      if a.Err? {
        return Err(401, a.error);
      }
      var updated := UpdatedProfile(a.value.profile, updates, a.value.username, a.value.user.id);
      ProfileWriteValid(kv, a.value.username, updated);
      kv := kv[ProfileKey(a.value.username) := Record(updated)];
      r := Ok(updated);
    }

    /** `POST /upload/:day`. `uploadError` is the blob store's answer to the upload and
        `signedUrl` the signed URL it issued (None when signing failed); `now` is
        `Date.now()` and `uploadedAt` the ISO time. The record is appended to the day's
        list whatever its length. */
    method Upload(token: string, session: Option<AuthUser>, day: string, file: Option<FileInput>,
                  uploadError: Option<string>, signedUrl: Option<string>, now: nat, uploadedAt: string)
      returns (r: Reply<Photo>)
      requires Valid()
      modifies this
      ensures Valid()
      ensures r.Err? ==> kv == old(kv)
      ensures var a := Authenticate(old(kv), token, session);
        && (a.Err? ==> r == Err(401, a.error))
        && (a.Ok? && !IsValidDay(day) ==> r == Err(400, "Invalid day"))
        && (a.Ok? && IsValidDay(day) && file.None? ==> r == Err(400, "No file provided"))
        && (a.Ok? && IsValidDay(day) && file.Some? && uploadError.Some? ==>
              r == Err(500, "Upload failed: " + uploadError.value))
        && (r.Ok? <==> a.Ok? && IsValidDay(day) && file.Some? && uploadError.None?)
        && (r.Ok? ==>
              var key := PhotosKey(a.value.username, day);
              && r.value == Photo(now, PhotoPath(a.value.username, day, now, file.value.name), signedUrl, uploadedAt)
              && kv == old(kv)[key := PhotoList(PhotosAt(old(kv), key) + [r.value])])
    {
      var a := Authenticate(kv, token, session);
      if a.Err? {
        return Err(401, a.error);
      }
      if !IsValidDay(day) {
        return Err(400, "Invalid day");
      }
      if file.None? {
        return Err(400, "No file provided");
      }
      var path := PhotoPath(a.value.username, day, now, file.value.name);
      if uploadError.Some? {
        return Err(500, "Upload failed: " + uploadError.value);
      }
      var key := PhotosKey(a.value.username, day);
      var photos := PhotosAt(kv, key);
      var photo := Photo(now, path, signedUrl, uploadedAt);
      photos := photos + [photo];
      PhotosWriteValid(kv, a.value.username, day, photos);
      kv := kv[key := PhotoList(photos)];
      r := Ok(photo);
    }

    /** `DELETE /photo/:day/:photoId`. The id is read with `parseInt`; on success the answer
        is the path of the first matching record, which is removed from the blob store. */
    method DeletePhoto(token: string, session: Option<AuthUser>, day: string, photoId: string)
      returns (r: Reply<string>)
      requires Valid()
      modifies this
      ensures Valid()
      ensures r.Err? ==> kv == old(kv)
      ensures var a := Authenticate(old(kv), token, session);
        && (a.Err? ==> r == Err(401, a.error))
        && (a.Ok? && !IsValidDay(day) ==> r == Err(400, "Invalid day"))
        && (a.Ok? && IsValidDay(day) ==>
              var key := PhotosKey(a.value.username, day);
              var photos := PhotosAt(old(kv), key);
              var id := ParseInt(photoId);
              && (id.None? || FindById(photos, id.value).None? ==> r == Err(404, "Photo not found"))
              && (id.Some? && FindById(photos, id.value).Some? ==>
                    && r == Ok(FindById(photos, id.value).value.path)
                    && kv == old(kv)[key := PhotoList(WithoutId(photos, id.value))]))
    {
      var a := Authenticate(kv, token, session);
      if a.Err? {
        return Err(401, a.error);
      }
      if !IsValidDay(day) {
        return Err(400, "Invalid day");
      }
      var key := PhotosKey(a.value.username, day);
      var photos := PhotosAt(kv, key);
      var id := ParseInt(photoId);
      if id.None? {
        return Err(404, "Photo not found");
      }
      var found := FindById(photos, id.value);
      if found.None? {
        return Err(404, "Photo not found");
      }
      var remaining := WithoutId(photos, id.value);
      PhotosWriteValid(kv, a.value.username, day, remaining);
      kv := kv[key := PhotoList(remaining)];
      r := Ok(found.value.path);
    }

    /** `PUT /day-content/:day`: the stored record (or `{}`) overlaid with the body. */
    method UpdateDayContent(token: string, session: Option<AuthUser>, day: string, updates: Fields)
      returns (r: Reply<Fields>)
      requires Valid()
      modifies this
      ensures Valid()
      ensures r.Err? ==> kv == old(kv)
      ensures var a := Authenticate(old(kv), token, session);
        && (a.Err? ==> r == Err(401, a.error))
        && (a.Ok? && !IsValidDay(day) ==> r == Err(400, "Invalid day"))
        && (r.Ok? <==> a.Ok? && IsValidDay(day))
        && (r.Ok? ==>
              var key := DayContentKey(a.value.username, day);
              && r.value == Merge(DayContent(old(kv), a.value.username, day), updates)
              && kv == old(kv)[key := Record(r.value)])
    {
      var a := Authenticate(kv, token, session);
      if a.Err? {
        return Err(401, a.error);
      }
      if !IsValidDay(day) {
        return Err(400, "Invalid day");
      }
      var key := DayContentKey(a.value.username, day);
      var content := Merge(RecordAt(kv, key), updates);
      ContentWriteValid(kv, a.value.username, day, content);
      kv := kv[key := Record(content)];
      r := Ok(content);
    }

    /** `PUT /admin/featured`: an admin names the featured creator, lower-cased and trimmed;
        an unknown name is refused and the setting stays as it was. */
    method SetFeatured(token: string, session: Option<AuthUser>, username: string) returns (r: Reply<string>)
      requires Valid()
      modifies this
      ensures Valid()
      ensures r.Err? ==> kv == old(kv)
      ensures var a := Authenticate(old(kv), token, session);
        var name := NormalizeFeatured(username);
        && (a.Err? ==> r == Err(401, a.error))
        && (a.Ok? && !IsAdmin(a.value) ==> r == Err(403, "Forbidden"))
        && (a.Ok? && IsAdmin(a.value) && name == "" ==> r == Err(400, "Username is required"))
        && (a.Ok? && IsAdmin(a.value) && name != "" && ProfileKey(name) !in old(kv) ==> r == Err(404, "User not found"))
        && (r.Ok? <==> a.Ok? && IsAdmin(a.value) && name != "" && ProfileKey(name) in old(kv))
        && (r.Ok? ==> r.value == name && kv == old(kv)[FeaturedKey := Str(name)])
    {
      var a := Authenticate(kv, token, session);
      if a.Err? {
        return Err(401, a.error);
      }
      if !IsAdmin(a.value) {
        return Err(403, "Forbidden");
      }
      var name := NormalizeFeatured(username);
      if name == "" {
        return Err(400, "Username is required");
      }
      if ProfileKey(name) !in kv {
        return Err(404, "User not found");
      }
      FeaturedWriteValid(kv, name);
      kv := kv[FeaturedKey := Str(name)];
      r := Ok(name);
    }

    /** `GET /public/:username`: the public profile and, for every day of the server's list,
        that day's photos with freshly signed URLs. */
    method PublicProfile(username: string, signer: string -> Option<string>) returns (r: Reply<PublicView>)
      ensures ProfileKey(username) !in kv ==> r == Err(404, "User not found")
      ensures ProfileKey(username) in kv ==>
        && r.Ok?
        && r.value.profile == PublicSummary(RecordAt(kv, ProfileKey(username)))
        && r.value.photos.Keys == set d | d in DayPaths
        && forall d :: d in r.value.photos ==>
             r.value.photos[d] == RefreshAll(PhotosAt(kv, PhotosKey(username, d)), signer)
    {
      if ProfileKey(username) !in kv {
        return Err(404, "User not found");
      }
      var photos: map<string, seq<Photo>> := map[];
      for i := 0 to |DayPaths|
        invariant photos.Keys == set d | d in DayPaths[..i]
        invariant forall d :: d in photos ==> photos[d] == RefreshAll(PhotosAt(kv, PhotosKey(username, d)), signer)
      {
        var day := DayPaths[i];
        assert DayPaths[..i + 1] == DayPaths[..i] + [day];
        photos := photos[day := RefreshAll(PhotosAt(kv, PhotosKey(username, day)), signer)];
      }
      assert DayPaths[..|DayPaths|] == DayPaths;
      r := Ok(PublicView(PublicSummary(RecordAt(kv, ProfileKey(username))), photos));
    }
  }
}
