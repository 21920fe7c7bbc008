/** The string helpers of the utilities file: MM:SS durations, call-room ids,
    media error messages and user-record validation. */
module Helpers {
  import opened Js

  // ---------------------------------------------------------------------------
  // Decimal text (Number.prototype.toString on a non-negative integer)

  predicate IsDigit(c: char) {
    '0' <= c <= '9'
  }

  predicate AllDigits(s: string) {
    forall i :: 0 <= i < |s| ==> IsDigit(s[i])
  }

  function DigitChar(d: nat): (c: char)
    requires d < 10
    ensures IsDigit(c) && c as int - '0' as int == d
  {
    ('0' as int + d) as char
  }

  /** `n.toString()`: the shortest decimal text of `n`. */
  function DecimalString(n: nat): (s: string)
    decreases n
  {
    if n < 10 then [DigitChar(n)] else DecimalString(n / 10) + [DigitChar(n % 10)]
  }

  /** The number a string of decimal digits denotes (leading zeros allowed). */
  function DecimalValue(s: string): nat
    requires AllDigits(s)
    decreases |s|
  {
    if s == [] then 0
    else DecimalValue(s[..|s| - 1]) * 10 + (s[|s| - 1] as int - '0' as int)
  }

  /** `toString` writes digits only, at least one, and no leading zero
      (apart from "0" itself); it is shorter than 3 characters exactly for
      numbers below 100; and reading it back gives the number. */
  lemma {:induction false} DecimalRoundTrip(n: nat)
    ensures |DecimalString(n)| >= 1 && AllDigits(DecimalString(n))
    ensures DecimalValue(DecimalString(n)) == n
    ensures n >= 10 ==> DecimalString(n)[0] != '0'
    ensures |DecimalString(n)| == 1 <==> n < 10
    ensures |DecimalString(n)| <= 2 <==> n < 100
    decreases n
  {
    if n >= 10 {
      DecimalRoundTrip(n / 10);
      var s := DecimalString(n);
      assert s[..|s| - 1] == DecimalString(n / 10);
    }
  }

  /** A leading '0' does not change the value of a digit string. */
  lemma {:induction false} LeadingZeroValue(s: string)
    requires AllDigits(s)
    ensures AllDigits("0" + s) && DecimalValue("0" + s) == DecimalValue(s)
    decreases |s|
  {
    if s != [] {
      var t := "0" + s;
      assert t[..|t| - 1] == "0" + s[..|s| - 1];
      LeadingZeroValue(s[..|s| - 1]);
    }
  }

  // ---------------------------------------------------------------------------
  // formatDuration

  /** `s.padStart(2, '0')`. */
  function PadStart2(s: string): (r: string)
  {
    if |s| >= 2 then s else if |s| == 1 then "0" + s else "00"
  }

  /** `n.toString().padStart(2, '0')`. */
  function Pad2(n: nat): (r: string)
    ensures |r| >= 2 && AllDigits(r) && DecimalValue(r) == n
    ensures |r| == 2 <==> n < 100
  {
    DecimalRoundTrip(n);
    var d := DecimalString(n);
    LeadingZeroValue(d);
    PadStart2(d)
  }

  /** `formatDuration`: whole minutes, a colon, and the remaining seconds, each
      at least two digits. A call duration is a whole, non-negative count. */
  function FormatDuration(seconds: nat): (r: string)
  {
    Pad2(seconds / 60) + ":" + Pad2(seconds % 60)
  }

  /** Reads "M...M:SS" back: minutes are one or more digits, seconds exactly two
      digits below 60. */
  function ParseDuration(t: string): (r: Option<nat>)
  {
    if |t| >= 4 && t[|t| - 3] == ':' && AllDigits(t[..|t| - 3]) && AllDigits(t[|t| - 2..])
       && DecimalValue(t[|t| - 2..]) < 60
    then Some(DecimalValue(t[..|t| - 3]) * 60 + DecimalValue(t[|t| - 2..]))
    else None
  }

  /** The MM:SS shape: the seconds part is always exactly two digits after the
      colon, the minutes part at least two digits, the text is exactly five
      characters for durations under 100 minutes, and parsing it gives back the
      number of seconds (so minutes * 60 + seconds equals the input). */
  lemma FormatDurationSpec(seconds: nat)
    ensures var r := FormatDuration(seconds);
      |r| >= 5 && r[|r| - 3] == ':' &&
      AllDigits(r[..|r| - 3]) && AllDigits(r[|r| - 2..]) &&
      r[..|r| - 3] == Pad2(seconds / 60) && r[|r| - 2..] == Pad2(seconds % 60) &&
      (|r| == 5 <==> seconds < 6000) &&
      ParseDuration(r) == Some(seconds)
  {
    var m, s := Pad2(seconds / 60), Pad2(seconds % 60);
    var r := FormatDuration(seconds);
    assert r == m + ":" + s;
    assert |s| == 2;
    assert r[..|r| - 3] == m;
    assert r[|r| - 2..] == s;
  }

  /** Distinct durations are formatted differently. */
  lemma FormatDurationInjective(a: nat, b: nat)
    ensures FormatDuration(a) == FormatDuration(b) ==> a == b
  {
    FormatDurationSpec(a);
    FormatDurationSpec(b);
  }

  // ---------------------------------------------------------------------------
  // String.prototype.split with a one-character separator, and its inverse

  /** `s.split(sep)`: the maximal runs between separators, empty runs kept;
      the empty string gives one empty part. */
  function Split(s: string, sep: char): (r: seq<string>)
    ensures |r| >= 1
    decreases |s|
  {
    if s == [] then [""]
    else
      var rest := Split(s[1..], sep);
      if s[0] == sep then [""] + rest else [[s[0]] + rest[0]] + rest[1..]
  }

  /** `parts.join(sep)`. */
  function Join(parts: seq<string>, sep: char): (s: string)
    requires |parts| >= 1
    decreases |parts|
  {
    if |parts| == 1 then parts[0] else parts[0] + [sep] + Join(parts[1..], sep)
  }

  /** The number of occurrences of `c` in `s`. */
  function Occurrences(s: string, c: char): nat
    decreases |s|
  {
    if s == [] then 0 else (if s[0] == c then 1 else 0) + Occurrences(s[1..], c)
  }

  /** Splitting loses nothing: joining the parts with the separator gives the
      string back; no part contains the separator; there is one more part than
      there are separators. */
  lemma {:induction false} SplitSpec(s: string, sep: char)
    ensures Join(Split(s, sep), sep) == s
    ensures forall i :: 0 <= i < |Split(s, sep)| ==> sep !in Split(s, sep)[i]
    ensures |Split(s, sep)| == Occurrences(s, sep) + 1
    decreases |s|
  {
    if s != [] {
      var rest := Split(s[1..], sep);
      SplitSpec(s[1..], sep);
      if s[0] == sep {
        assert Split(s, sep)[1..] == rest;
        assert s == [s[0]] + s[1..];
      } else {
        var r := Split(s, sep);
        assert r[1..] == rest[1..];
        if |rest| == 1 {
          assert Join(r, sep) == [s[0]] + rest[0];
        } else {
          assert Join(rest, sep) == rest[0] + [sep] + Join(rest[1..], sep);
          assert Join(r, sep) == [s[0]] + rest[0] + [sep] + Join(rest[1..], sep);
        }
        assert s == [s[0]] + s[1..];
        forall i | 0 <= i < |r| ensures sep !in r[i] {
          if i > 0 {
            assert r[i] == rest[i];
          }
        }
      }
    }
  }

  /** The parts up to the first separator, and after it, are those of the
      first run and the rest: `(a + [sep] + b).split(sep) == [a] + b.split(sep)`
      when `a` holds no separator. */
  lemma {:induction false} SplitAppend(a: string, sep: char, b: string)
    requires sep !in a
    ensures Split(a + [sep] + b, sep) == [a] + Split(b, sep)
    decreases |a|
  {
    if a == [] {
      assert a + [sep] + b == [sep] + b;
      assert ([sep] + b)[1..] == b;
    } else {
      SplitAppend(a[1..], sep, b);
      assert (a + [sep] + b)[1..] == a[1..] + [sep] + b;
      assert [a[0]] + a[1..] == a;
    }
  }

  // ---------------------------------------------------------------------------
  // parseCallRoomId

  /** The fields of a call-room id "prefix_initiator_receiver[_timestamp...]".
      `timestamp` is the text `parseInt` is applied to. */
  datatype CallRoom = CallRoom(prefix: string, initiatorId: string, receiverId: string, timestamp: Option<string>)

  /** `parseCallRoomId`; `None` as the argument stands for any value that is
      not a string, as well as `null` and `undefined`. */
  function ParseCallRoomId(callRoomId: JsStr): (r: Option<CallRoom>)
    ensures !Truthy(callRoomId) ==> r.None?
    ensures Truthy(callRoomId) ==> (r.None? <==> |Split(callRoomId.value, '_')| < 3)
  {
    if !Truthy(callRoomId) then None
    else
      var parts := Split(callRoomId.value, '_');
      if |parts| < 3 then None
      else Some(CallRoom(parts[0], parts[1], parts[2],
                         if |parts| > 3 && parts[3] != "" then Some(parts[3]) else None))
  }

  /** A room id parses exactly when it is a non-empty string holding at least
      two '_'. Then its three ids hold no '_' and spell out its start, and the
      timestamp is present exactly when a non-empty fourth part follows. */
  lemma ParseCallRoomIdSpec(callRoomId: JsStr)
    ensures ParseCallRoomId(callRoomId).Some? <==>
              Truthy(callRoomId) && Occurrences(callRoomId.value, '_') >= 2
    ensures ParseCallRoomId(callRoomId).Some? ==>
              var r := ParseCallRoomId(callRoomId).value;
              var parts := Split(callRoomId.value, '_');
              '_' !in r.prefix && '_' !in r.initiatorId && '_' !in r.receiverId &&
              r.prefix == parts[0] && r.initiatorId == parts[1] && r.receiverId == parts[2] &&
              (r.timestamp.None? <==> |parts| == 3 || parts[3] == "") &&
              (r.timestamp.Some? ==> r.timestamp.value == parts[3]) &&
              (|parts| == 3 ==> callRoomId.value == r.prefix + "_" + r.initiatorId + "_" + r.receiverId)
  {
    if Truthy(callRoomId) {
      var s := callRoomId.value;
      SplitSpec(s, '_');
      var parts := Split(s, '_');
      if |parts| == 3 {
        assert parts[1..][1..] == [parts[2]];
        assert Join(parts[1..], '_') == parts[1] + "_" + parts[2];
        assert Join(parts, '_') == parts[0] + "_" + (parts[1] + "_" + parts[2]);
      }
    }
  }

  /** Building a room id from three '_'-free ids and splitting or parsing it
      gives the ids back. */
  lemma ParseBuiltCallRoomId(prefix: string, initiatorId: string, receiverId: string)
    requires '_' !in prefix && '_' !in initiatorId && '_' !in receiverId
    ensures Split(prefix + "_" + initiatorId + "_" + receiverId, '_') == [prefix, initiatorId, receiverId]
    ensures ParseCallRoomId(Some(prefix + "_" + initiatorId + "_" + receiverId))
            == Some(CallRoom(prefix, initiatorId, receiverId, None))
  {
    var s := prefix + "_" + initiatorId + "_" + receiverId;
    assert s == prefix + ['_'] + (initiatorId + ['_'] + receiverId);
    SplitAppend(prefix, '_', initiatorId + ['_'] + receiverId);
    SplitAppend(initiatorId, '_', receiverId);
    SplitSpec(receiverId, '_');
    assert Occurrences(receiverId, '_') == 0 by { NoOccurrences(receiverId, '_'); }
    var rs := Split(receiverId, '_');
    assert |rs| == 1;
    assert Join(rs, '_') == rs[0];
    assert Split(s, '_') == [prefix, initiatorId, receiverId];
  }

  lemma {:induction false} NoOccurrences(s: string, c: char)
    requires c !in s
    ensures Occurrences(s, c) == 0
    decreases |s|
  {
    if s != [] {
      assert s[1..] == s[1..];
      assert forall x :: x in s[1..] ==> x in s;
      NoOccurrences(s[1..], c);
    }
  }

  // ---------------------------------------------------------------------------
  // getMediaErrorMessage

  const UnknownMediaErrorText := "Unknown error occurred while accessing media devices"
  const MediaErrorPrefix := "Media error: "

  /** The seven DOMException names the helper knows, with their messages. */
  const KnownMediaErrors: map<string, string> := map[
    "NotAllowedError" := "Camera and microphone access denied. Please allow access in your browser settings.",
    "NotFoundError" := "No camera or microphone found. Please connect your devices.",
    "NotReadableError" := "Camera or microphone is already in use by another application.",
    "OverconstrainedError" := "Camera or microphone constraints could not be satisfied.",
    "SecurityError" := "Media access blocked due to security restrictions.",
    "TypeError" := "Invalid media constraints specified.",
    "AbortError" := "Media access request was aborted."
  ]

  /** `getMediaErrorMessage`. With no error or no name the text is the generic
      one; a known name gives its fixed message; any other name gives
      "Media error: " followed by the message, or by the name when there is no
      message. */
  function GetMediaErrorMessage(error: Option<MediaErrorFields>): (r: string)
    ensures error.None? || !Truthy(error.value.name) ==> r == UnknownMediaErrorText
    ensures error.Some? && Truthy(error.value.name) && error.value.name.value in KnownMediaErrors ==>
              r == KnownMediaErrors[error.value.name.value]
    ensures error.Some? && Truthy(error.value.name) && error.value.name.value !in KnownMediaErrors ==>
              r == MediaErrorPrefix + (if Truthy(error.value.message) then error.value.message.value
                                       else error.value.name.value)
  {
    if error.None? || !Truthy(error.value.name) then UnknownMediaErrorText
    else
      var name := error.value.name.value;
      if name == "NotAllowedError" then "Camera and microphone access denied. Please allow access in your browser settings."
      else if name == "NotFoundError" then "No camera or microphone found. Please connect your devices."
      else if name == "NotReadableError" then "Camera or microphone is already in use by another application."
      else if name == "OverconstrainedError" then "Camera or microphone constraints could not be satisfied."
      else if name == "SecurityError" then "Media access blocked due to security restrictions."
      else if name == "TypeError" then "Invalid media constraints specified."
      else if name == "AbortError" then "Media access request was aborted."
      else MediaErrorPrefix + OrElse(error.value.message, name)
  }

  /** The error fields the helper reads. */
  datatype MediaErrorFields = MediaErrorFields(name: JsStr, message: JsStr)

  // ---------------------------------------------------------------------------
  // validateUserData and String.prototype.trim

  /** The WhiteSpace and LineTerminator characters `trim` removes. */
  predicate IsJsSpace(c: char) {
    var n := c as int;
    n == 0x09 || n == 0x0A || n == 0x0B || n == 0x0C || n == 0x0D || n == 0x20 ||
    n == 0xA0 || n == 0x1680 || (0x2000 <= n <= 0x200A) || n == 0x2028 || n == 0x2029 ||
    n == 0x202F || n == 0x205F || n == 0x3000 || n == 0xFEFF
  }

  function TrimStart(s: string): (r: string)
    decreases |s|
  {
    if s != [] && IsJsSpace(s[0]) then TrimStart(s[1..]) else s
  }

  function TrimEnd(s: string): (r: string)
    decreases |s|
  {
    if s != [] && IsJsSpace(s[|s| - 1]) then TrimEnd(s[..|s| - 1]) else s
  }

  /** `s.trim()`. */
  function Trim(s: string): string {
    TrimEnd(TrimStart(s))
  }

  predicate HasNonSpace(s: string) {
    exists i :: 0 <= i < |s| && !IsJsSpace(s[i])
  }

  lemma {:induction false} TrimStartSpec(s: string)
    ensures HasNonSpace(TrimStart(s)) <==> HasNonSpace(s)
    ensures TrimStart(s) == [] <==> !HasNonSpace(s)
    decreases |s|
  {
    if s != [] && IsJsSpace(s[0]) {
      TrimStartSpec(s[1..]);
      if HasNonSpace(s) {
        var i :| 0 <= i < |s| && !IsJsSpace(s[i]);
        assert s[1..][i - 1] == s[i];
      }
      if HasNonSpace(s[1..]) {
        var i :| 0 <= i < |s| - 1 && !IsJsSpace(s[1..][i]);
        assert s[i + 1] == s[1..][i];
      }
    } else if s != [] {
      assert !IsJsSpace(s[0]);
    }
  }

  lemma {:induction false} TrimEndSpec(s: string)
    ensures HasNonSpace(TrimEnd(s)) <==> HasNonSpace(s)
    ensures TrimEnd(s) == [] <==> !HasNonSpace(s)
    decreases |s|
  {
    if s != [] && IsJsSpace(s[|s| - 1]) {
      var p := s[..|s| - 1];
      TrimEndSpec(p);
      if HasNonSpace(s) {
        var i :| 0 <= i < |s| && !IsJsSpace(s[i]);
        assert i < |s| - 1 && p[i] == s[i];
      }
      if HasNonSpace(p) {
        var i :| 0 <= i < |p| && !IsJsSpace(p[i]);
        assert s[i] == p[i];
      }
    } else if s != [] {
      assert !IsJsSpace(s[|s| - 1]);
    }
  }

  /** `trim()` leaves something exactly when the string holds a character that
      is not white space. */
  lemma TrimNonEmpty(s: string)
    ensures |Trim(s)| > 0 <==> HasNonSpace(s)
  {
    TrimStartSpec(s);
    TrimEndSpec(TrimStart(s));
  }

  /** The fields of a user record the helpers read; a missing field is `None`. */
  datatype UserData = UserData(
    _id: JsStr, id: JsStr, name: JsStr, fullName: JsStr, firstName: JsStr,
    email: JsStr, emailAddresses: seq<JsStr>, avatar: JsStr, imageUrl: JsStr, userType: JsStr)

  /** The `required.every(...)` test of one field: present, and not empty after `trim()`. */
  predicate FieldFilled(v: JsStr) {
    Truthy(v) && |Trim(v.value)| > 0
  }

  /** `validateUserData`. */
  function ValidateUserData(user: Option<UserData>): (ok: bool)
  {
    user.Some? && FieldFilled(user.value._id) && FieldFilled(user.value.name)
  }

  /** A record is valid exactly when it exists and both `_id` and `name` are
      present and hold a character that is not white space. */
  lemma ValidateUserDataSpec(user: Option<UserData>)
    ensures ValidateUserData(user) <==>
              user.Some? && user.value._id.Some? && HasNonSpace(user.value._id.value) &&
              user.value.name.Some? && HasNonSpace(user.value.name.value)
  {
    if user.Some? {
      if user.value._id.Some? { TrimNonEmpty(user.value._id.value); }
      if user.value.name.Some? { TrimNonEmpty(user.value.name.value); }
    }
  }

  // ---------------------------------------------------------------------------
  // createSafeUserObject

  /** Where an avatar comes from: a given URL, or the avatar service URL built
      for a name on a background colour (`generateAvatarUrl`, whose default
      background is `DefaultAvatarBackground`). */
  datatype Avatar = AvatarUrl(url: string) | GeneratedAvatar(forName: string, background: string)

  const DefaultAvatarBackground := "4f46e5"

  datatype SafeUser = SafeUser(_id: string, name: string, email: string, avatar: Avatar, userType: string)

  /** A record with every field missing: what `userData?.field` reads when
      there is no record at all. */
  const NoUserData := UserData(None, None, None, None, None, None, [], None, None, None)

  /** `createSafeUserObject`. The id is `_id` when present, else `id`, else
      "unknown"; the user type defaults to "patient"; with no record at all the
      name is the fallback, the e-mail empty and the avatar generated for the
      fallback name. */
  function CreateSafeUserObject(userData: Option<UserData>, fallbackName: string): (u: SafeUser)
    ensures u._id != "" && u.userType != ""
    ensures userData.Some? && Truthy(userData.value._id) ==> u._id == userData.value._id.value
    ensures userData.Some? && !Truthy(userData.value._id) && Truthy(userData.value.id) ==> u._id == userData.value.id.value
    ensures userData.None? || (!Truthy(userData.value._id) && !Truthy(userData.value.id)) ==> u._id == "unknown"
    ensures userData.Some? && Truthy(userData.value.userType) ==> u.userType == userData.value.userType.value
    ensures userData.None? || !Truthy(userData.value.userType) ==> u.userType == "patient"
    ensures userData.None? ==> u.name == fallbackName && u.email == "" && u.avatar == GeneratedAvatar(fallbackName, DefaultAvatarBackground)
    // The name: `name`, else `fullName`, else `firstName`, else the fallback.
    ensures userData.Some? && Truthy(userData.value.name) ==> u.name == userData.value.name.value
    ensures userData.Some? && !Truthy(userData.value.name) && Truthy(userData.value.fullName) ==>
              u.name == userData.value.fullName.value
    ensures (userData.Some? && !Truthy(userData.value.name) && !Truthy(userData.value.fullName) &&
             Truthy(userData.value.firstName)) ==> u.name == userData.value.firstName.value
    ensures (userData.Some? && !Truthy(userData.value.name) && !Truthy(userData.value.fullName) &&
             !Truthy(userData.value.firstName)) ==> u.name == fallbackName
    // The e-mail: `email`, else the first address, else empty.
    ensures userData.Some? && Truthy(userData.value.email) ==> u.email == userData.value.email.value
    ensures (userData.Some? && !Truthy(userData.value.email) && |userData.value.emailAddresses| > 0 &&
             Truthy(userData.value.emailAddresses[0])) ==> u.email == userData.value.emailAddresses[0].value
    ensures (userData.Some? && !Truthy(userData.value.email) &&
             (|userData.value.emailAddresses| == 0 || !Truthy(userData.value.emailAddresses[0]))) ==> u.email == ""
    // The avatar: `avatar`, else `imageUrl`, else one generated for `name` or the fallback.
    ensures userData.Some? && Truthy(userData.value.avatar) ==> u.avatar == AvatarUrl(userData.value.avatar.value)
    ensures userData.Some? && !Truthy(userData.value.avatar) && Truthy(userData.value.imageUrl) ==>
              u.avatar == AvatarUrl(userData.value.imageUrl.value)
    ensures userData.Some? && !Truthy(userData.value.avatar) && !Truthy(userData.value.imageUrl) ==>
              u.avatar == GeneratedAvatar(if Truthy(userData.value.name) then userData.value.name.value else fallbackName,
                                          DefaultAvatarBackground)
  {
    var d := if userData.Some? then userData.value else NoUserData;
    var firstAddress := if |d.emailAddresses| > 0 then d.emailAddresses[0] else None;
    var avatar := Or(d.avatar, d.imageUrl);
    SafeUser(
      OrElse(Or(d._id, d.id), "unknown"),
      OrElse(Or(Or(d.name, d.fullName), d.firstName), fallbackName),
      OrElse(Or(d.email, firstAddress), ""),
      if Truthy(avatar) then AvatarUrl(avatar.value) else GeneratedAvatar(OrElse(d.name, fallbackName), DefaultAvatarBackground),
      OrElse(d.userType, "patient"))
  }

  /** The default fallback name of `createSafeUserObject`. */
  const DefaultFallbackName := "User"

  /** `createSafeUserObject(userData)`, the fallback name left to its default:
      with no record, or a record without any name, the user is "User". */
  function CreateSafeUserObjectDefault(userData: Option<UserData>): (u: SafeUser)
    ensures userData.None? ==>
              u.name == DefaultFallbackName && u.email == "" && u._id == "unknown" && u.userType == "patient" &&
              u.avatar == GeneratedAvatar(DefaultFallbackName, DefaultAvatarBackground)
    ensures (userData.Some? && !Truthy(userData.value.name) && !Truthy(userData.value.fullName) &&
             !Truthy(userData.value.firstName)) ==> u.name == DefaultFallbackName
    ensures userData.Some? && Truthy(userData.value.name) ==> u.name == userData.value.name.value
  {
    CreateSafeUserObject(userData, DefaultFallbackName)
  }
}
