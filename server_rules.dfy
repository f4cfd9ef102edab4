/** The pure rules of the edge function: which days are valid, how user names, emails and
    sign-in identifiers are normalised, who may become an admin, how an uploaded file's
    name is made safe and where the file is stored, and which header carries the token. */
module ServerRules {
  import opened Optional
  import opened Text
  import ValentineDays

  /** `DAY_PATHS`, the server's own copy of the day list. */
  const DayPaths: seq<string> :=
    ["rose", "propose", "chocolate", "teddy", "promise", "hug", "kiss", "valentine"]

  /** `isValidDay`. */
  predicate IsValidDay(day: string) {
    day in DayPaths
  }

  /** The server's list is the client's table, path for path and in the same order. */
  lemma DayPathsMatchTable()
    ensures DayPaths == ValentineDays.ValidDayPaths()
    ensures forall d :: IsValidDay(d) <==> d in ValentineDays.DayMap()
  {
    ValentineDays.DaysPaths();
    forall d ensures IsValidDay(d) <==> d in ValentineDays.DayMap() {
      ValentineDays.ValidPathsAreKeys(d);
    }
  }

  /** `isEmail`. */
  predicate IsEmail(value: string) {
    Contains(value, "@")
  }

  /** `username.toLowerCase().trim().replace(/\s+/g, '')`; sign-in normalises its
      identifier with the same expression. */
  function NormalizeUsername(raw: string): string {
    RemoveSpaces(Trim(Lower(raw)))
  }

  /** `email.trim().toLowerCase()`. */
  function NormalizeEmail(raw: string): (r: string)
    ensures NoUpper(r) && |r| <= |raw|
    ensures r == [] || (!IsSpace(r[0]) && !IsSpace(r[|r| - 1]))
  {
    Lower(Trim(raw))
  }

  /** `(username || '').toLowerCase().trim()` for the featured creator. */
  function NormalizeFeatured(raw: string): (r: string)
    ensures NoUpper(r) && |r| <= |raw|
    ensures r == [] || (!IsSpace(r[0]) && !IsSpace(r[|r| - 1]))
  {
    var l := Lower(raw);
    var r := Trim(l);
    TrimKeepsNoUpper(l);
    r
  }

  lemma TrimKeepsNoUpper(s: string)
    requires NoUpper(s)
    ensures NoUpper(Trim(s))
  {
    var r := Trim(s);
    var u := TrimStart(s);
    var i := |s| - |u|;
    forall k | 0 <= k < |r| ensures !IsUpper(r[k]) {
      assert r[k] == u[k] == s[i + k];
    }
  }

  lemma AllSpaceRemoved(s: string)
    requires forall i :: 0 <= i < |s| ==> IsSpace(s[i])
    ensures RemoveSpaces(s) == []
  {
    if s != [] {
      AllSpaceRemoved(s[1..]);
    }
  }

  /** Trimming before removing all white space makes no difference. */
  lemma TrimSubsumed(s: string)
    ensures RemoveSpaces(Trim(s)) == RemoveSpaces(s)
  {
    var u := TrimStart(s);
    var t := Trim(s);
    SpacePrefixRemoved(s, |s| - |u|);
    assert s[|s| - |u|..] == u;
    SpaceSuffixRemoved(u, |t|);
    assert u[..|t|] == t;
  }

  /** White space in front is removed without trace. */
  lemma SpacePrefixRemoved(s: string, i: nat)
    requires i <= |s| && forall k :: 0 <= k < i ==> IsSpace(s[k])
    ensures RemoveSpaces(s) == RemoveSpaces(s[i..])
  {
    var head := s[..i];
    forall k | 0 <= k < |head| ensures IsSpace(head[k]) {
      assert head[k] == s[k];
    }
    assert s == head + s[i..];
    AllSpaceRemoved(head);
    RemoveSpacesConcat(head, s[i..]);
  }

  /** White space at the end is removed without trace. */
  lemma SpaceSuffixRemoved(s: string, i: nat)
    requires i <= |s| && forall k :: i <= k < |s| ==> IsSpace(s[k])
    ensures RemoveSpaces(s) == RemoveSpaces(s[..i])
  {
    var tail := s[i..];
    forall k | 0 <= k < |tail| ensures IsSpace(tail[k]) {
      assert tail[k] == s[i + k];
    }
    assert s == s[..i] + tail;
    AllSpaceRemoved(tail);
    RemoveSpacesConcat(s[..i], tail);
  }

  lemma {:induction false} LowerConcat(a: string, b: string)
    ensures Lower(a + b) == Lower(a) + Lower(b)
  {
    if a == [] {
      assert a + b == b;
    } else {
      assert (a + b)[0] == a[0] && (a + b)[1..] == a[1..] + b;
      LowerConcat(a[1..], b);
    }
  }

  lemma {:induction false} LowerOfLower(s: string)
    requires NoUpper(s)
    ensures Lower(s) == s
  {
    if s != [] {
      LowerOfLower(s[1..]);
    }
  }

  /** A normalised user name has no white space and no upper-case letter, and it is
      empty exactly when the raw name has nothing but white space. */
  lemma NormalizeUsernameShape(raw: string)
    ensures NoSpace(NormalizeUsername(raw)) && NoUpper(NormalizeUsername(raw))
    ensures NormalizeUsername(raw) == RemoveSpaces(Lower(raw))
    ensures NormalizeUsername(raw) == [] <==> forall i :: 0 <= i < |raw| ==> IsSpace(raw[i])
  {
    var l := Lower(raw);
    TrimSubsumed(l);
    RemoveSpacesKeepsNoUpper(l);
    RemoveSpacesEmpty(l);
    assert (forall i :: 0 <= i < |l| ==> IsSpace(l[i])) <==> (forall i :: 0 <= i < |raw| ==> IsSpace(raw[i]));
  }

  lemma RemoveSpacesKeepsNoUpper(s: string)
    requires NoUpper(s)
    ensures NoUpper(RemoveSpaces(s))
  {
    var r := RemoveSpaces(s);
    forall i | 0 <= i < |r| ensures !IsUpper(r[i]) {
      var j :| 0 <= j < |s| && s[j] == r[i];
    }
  }

  lemma RemoveSpacesEmpty(s: string)
    ensures RemoveSpaces(s) == [] <==> forall i :: 0 <= i < |s| ==> IsSpace(s[i])
  {
    if forall i :: 0 <= i < |s| ==> IsSpace(s[i]) {
      AllSpaceRemoved(s);
    } else {
      var i :| 0 <= i < |s| && !IsSpace(s[i]);
      KeepsNonSpace(s, i);
    }
  }

  lemma {:induction false} KeepsNonSpace(s: string, i: nat)
    requires i < |s| && !IsSpace(s[i])
    ensures RemoveSpaces(s) != []
  {
    if IsSpace(s[0]) {
      KeepsNonSpace(s[1..], i - 1);
    }
  }

  /** Two raw names that differ only by white space inserted anywhere normalise to the
      same name, so they compete for the same profile key. */
  lemma NormalizeUsernameIgnoresSpace(a: string, w: string, b: string)
    requires forall i :: 0 <= i < |w| ==> IsSpace(w[i])
    ensures NormalizeUsername(a + w + b) == NormalizeUsername(a + b)
  {
    NormalizeUsernameShape(a + w + b);
    NormalizeUsernameShape(a + b);
    LowerConcat(a + w, b);
    LowerConcat(a, w);
    LowerConcat(a, b);
    RemoveSpacesConcat(Lower(a) + Lower(w), Lower(b));
    RemoveSpacesConcat(Lower(a), Lower(w));
    AllSpaceRemoved(Lower(w));
    assert RemoveSpaces(Lower(a) + Lower(w)) == RemoveSpaces(Lower(a));
    RemoveSpacesConcat(Lower(a), Lower(b));
  }

  /** Letter case does not matter to the normalised name. */
  lemma NormalizeUsernameIgnoresCase(a: string)
    ensures NormalizeUsername(Lower(a)) == NormalizeUsername(a)
  {
    NormalizeUsernameShape(Lower(a));
    NormalizeUsernameShape(a);
    LowerOfLower(Lower(a));
  }

  /** A normalised name is its own normal form. */
  lemma NormalizeUsernameIdempotent(a: string)
    ensures NormalizeUsername(NormalizeUsername(a)) == NormalizeUsername(a)
  {
    var n := NormalizeUsername(a);
    NormalizeUsernameShape(a);
    NormalizeUsernameShape(n);
    LowerOfLower(n);
  }

  /** The role a signup asks for, decided before anything is written: only the literal
      `'admin'` makes an admin, and only with a configured, non-empty passcode that the
      request repeats exactly; any other requested role becomes `'member'`. None is
      the 403 answer. */
  function SignupRole(requested: string, provided: string, configured: string): (r: Option<string>)
    ensures r == Some("admin") <==> requested == "admin" && configured != "" && provided == configured
    ensures r == Some("member") <==> requested != "admin"
    ensures r.None? <==> requested == "admin" && (configured == "" || provided != configured)
  {
    var role := if requested == "admin" then "admin" else "member";
    if role == "admin" && (configured == "" || provided != configured) then None else Some(role)
  }

  /** The characters `/[^a-zA-Z0-9._-]/g` leaves alone. */
  predicate SafeChar(c: char) {
    'a' <= c <= 'z' || 'A' <= c <= 'Z' || IsDigit(c) || c == '.' || c == '_' || c == '-'
  }

  /** The length of a string in UTF-16 code units, JavaScript's `length`. */
  function Utf16Length(s: string): nat {
    if s == [] then 0 else (if s[0] as int > 0xFFFF then 2 else 1) + Utf16Length(s[1..])
  }

  /** `(name || 'image').replace(/[^a-zA-Z0-9._-]/g, '_')`. The pattern has no `u` flag,
      so it matches UTF-16 code units: a character outside the Basic Multilingual Plane
      becomes two underscores. */
  function SanitizeFileName(name: string): (r: string)
    ensures name == "" ==> r == "image"
    ensures forall i :: 0 <= i < |r| ==> SafeChar(r[i])
    ensures Utf16Length(r) == if name == "" then 5 else Utf16Length(name)
  {
    if name == "" then "image" else ReplaceUnsafe(name)
  }

  function ReplaceUnsafe(s: string): (r: string)
    ensures forall i :: 0 <= i < |r| ==> SafeChar(r[i])
    ensures Utf16Length(r) == Utf16Length(s)
    ensures (forall i :: 0 <= i < |s| ==> SafeChar(s[i])) ==> r == s
  {
    if s == [] then []
    else
      var head := if SafeChar(s[0]) then [s[0]] else if s[0] as int > 0xFFFF then "__" else "_";
      var tail := ReplaceUnsafe(s[1..]);
      Utf16LengthConcat(head, tail);
      assert Utf16Length(head) == Utf16Length([s[0]]);
      head + tail
  }

  /** The replacement of one character: a safe one is kept, an unsafe one becomes `_`, or
      `__` when it takes two UTF-16 code units. */
  lemma ReplaceUnsafeChar(c: char)
    ensures SafeChar(c) ==> ReplaceUnsafe([c]) == [c]
    ensures !SafeChar(c) && c as int <= 0xFFFF ==> ReplaceUnsafe([c]) == "_"
    ensures !SafeChar(c) && c as int > 0xFFFF ==> ReplaceUnsafe([c]) == "__"
  {
    assert [c][1..] == [];
  }

  /** The replacement works character by character: it distributes over concatenation,
      so every character of a mixed name is treated as `ReplaceUnsafeChar` says. */
  lemma {:induction false} ReplaceUnsafeConcat(a: string, b: string)
    ensures ReplaceUnsafe(a + b) == ReplaceUnsafe(a) + ReplaceUnsafe(b)
  {
    if a == [] {
      assert a + b == b;
    } else {
      assert (a + b)[0] == a[0] && (a + b)[1..] == a[1..] + b;
      ReplaceUnsafeConcat(a[1..], b);
    }
  }

  /** UTF-16 lengths add up. */
  lemma {:induction false} Utf16LengthConcat(a: string, b: string)
    ensures Utf16Length(a + b) == Utf16Length(a) + Utf16Length(b)
  {
    if a != [] {
      assert (a + b)[0] == a[0] && (a + b)[1..] == a[1..] + b;
      Utf16LengthConcat(a[1..], b);
    } else {
      assert a + b == b;
    }
  }

  /** No valid day contains a `/`. */
  lemma ValidDayHasNoSlash(day: string)
    requires IsValidDay(day)
    ensures '/' !in day
  {
  }

  /** `${username}/${day}/${timestamp}_${sanitizedName}`. */
  function PhotoPath(username: string, day: string, timestamp: nat, fileName: string): string {
    username + "/" + day + "/" + DecimalString(timestamp) + "_" + SanitizeFileName(fileName)
  }

  lemma BeforeSlash(u: string, rest: string)
    requires '/' !in u
    ensures Before(u + "/" + rest, "/") == u
  {
    var s := u + "/" + rest;
    forall k | 0 <= k < |u| ensures !OccursAt(s, "/", k) {
      assert s[k..k + 1] == [u[k]];
    }
    assert OccursAt(s, "/", |u|) by { assert s[|u|..|u| + 1] == "/"; }
  }

  /** The storage path splits back into the owner, the day and the upload timestamp
      (the photo's id) whenever the owner's name has no `/`. */
  lemma PhotoPathParts(username: string, day: string, timestamp: nat, fileName: string)
    requires '/' !in username && IsValidDay(day)
    ensures Before(PhotoPath(username, day, timestamp, fileName), "/") == username
    ensures var rest := PhotoPath(username, day, timestamp, fileName)[|username| + 1..];
      Before(rest, "/") == day
      && ParseInt(rest[|day| + 1..]) == Some(timestamp)
  {
    var name := "_" + SanitizeFileName(fileName);
    var tail := DecimalString(timestamp) + name;
    assert PhotoPath(username, day, timestamp, fileName) == username + "/" + day + "/" + tail;
    ValidDayHasNoSlash(day);
    SplitPath(username, day, tail);
    ParseIntDecimalPrefix(timestamp, name);
  }

  lemma SplitPath(u: string, day: string, tail: string)
    requires '/' !in u && '/' !in day
    ensures Before(u + "/" + day + "/" + tail, "/") == u
    ensures var rest := (u + "/" + day + "/" + tail)[|u| + 1..];
      Before(rest, "/") == day && rest[|day| + 1..] == tail
  {
    var path := u + "/" + day + "/" + tail;
    assert path == u + "/" + (day + "/" + tail);
    BeforeSlash(u, day + "/" + tail);
    assert path[|u| + 1..] == day + "/" + tail;
    BeforeSlash(day, tail);
  }

  /** `c.req.header('X-User-Token')?.trim() || c.req.header('Authorization')?.split(' ')[1]`,
      with `''` standing for `undefined`. */
  function AccessToken(userTokenHeader: Option<string>, authorizationHeader: Option<string>): (r: string)
    ensures userTokenHeader.Some? && Trim(userTokenHeader.value) != "" ==> r == Trim(userTokenHeader.value)
  {
    var own := if userTokenHeader.Some? then Trim(userTokenHeader.value) else "";
    if own != "" then own
    else if authorizationHeader.None? then ""
    else match SplitSecond(authorizationHeader.value, " ")
      case Some(t) => t
      case None => ""
  }

  /** Without a user-token header, a bearer credential `Bearer <token>` yields the token. */
  lemma BearerToken(token: string)
    requires ' ' !in token
    ensures AccessToken(None, Some("Bearer " + token)) == token
  {
    var h := "Bearer " + token;
    assert OccursAt(h, " ", 6) by { assert h[6..7] == " "; }
    forall k | 0 <= k < 6 ensures !OccursAt(h, " ", k) {
      assert h[k..k + 1] == [h[k]];
    }
    assert FirstAt(h, " ", 6);
    var after := h[7..];
    assert after == token;
    forall k | 0 <= k < |token| ensures !OccursAt(token, " ", k) {
      assert token[k..k + 1] == [token[k]];
    }
  }
}
