/**
 * The request guards: `protect` (bearer credential), `protectUser` (a user
 * id taken from the path) and `authorize` (role membership). Token
 * verification and the user lookup are passed in as functions.
 */
module Auth {
  import opened Common

  /** What `User.findById` gives: the user, no user, or a thrown error. */
  datatype Lookup = Found(user: User) | Absent | Failed

  /**
   * What a guard does with a request: call `next()` with `req.user` set to
   * `user` (which `protect` may leave null), or answer with an error.
   */
  datatype Decision = Continue(user: Option<User>) | Deny(error: Error)

  /** The role lists the routes hand to `authorize`. */
  const TreasurerOnly: seq<string> := [Tresorier]
  const PresidentOrPCO: seq<string> := [President, PCO]

  /** `Array.prototype.includes`, scanning from the front. */
  function Includes(xs: seq<string>, x: string): (b: bool)
    ensures b <==> x in xs
  {
    if xs == [] then false
    else if xs[0] == x then true
    else Includes(xs[1..], x)
  }

  /** `authorize(roles)`: answers 403 unless the user's role is one of `roles`. */
  function Authorize(roles: seq<string>, user: User): (d: Decision)
    ensures d == Continue(Some(user)) <==> user.role in roles
    ensures d.Deny? <==> user.role !in roles
    ensures d.Deny? ==> d.error == Forbidden
  {
    if !Includes(roles, user.role) then Deny(Forbidden) else Continue(Some(user))
  }

  /** The parts of `s` between occurrences of `sep`, as `String.prototype.split` gives them. */
  function Split(s: string, sep: char): (parts: seq<string>)
    ensures |parts| >= 1
    ensures forall i :: 0 <= i < |parts| ==> sep !in parts[i]
    ensures Join(parts, sep) == s
    ensures |parts| == 1 <==> sep !in s
  {
    if s == [] then [[]]
    else
      var rest := Split(s[1..], sep);
      if s[0] == sep then [[]] + rest
      else
        assert s == [s[0]] + s[1..];
        [[s[0]] + rest[0]] + rest[1..]
  }

  /** The inverse of Split: the parts glued back together with `sep`. */
  function Join(parts: seq<string>, sep: char): string {
    if parts == [] then []
    else if |parts| == 1 then parts[0]
    else parts[0] + [sep] + Join(parts[1..], sep)
  }

  /** Split is the only way to cut `s` into `sep`-free parts that join back to `s`. */
  lemma {:induction false} SplitUnique(s: string, sep: char, parts: seq<string>)
    requires |parts| >= 1
    requires forall i :: 0 <= i < |parts| ==> sep !in parts[i]
    requires Join(parts, sep) == s
    ensures parts == Split(s, sep)
    decreases |s|
  {
    if |parts| == 1 {
      assert sep !in s;
    } else if parts[0] == [] {
      var tail := parts[1..];
      assert s == [sep] + Join(tail, sep);
      assert s[1..] == Join(tail, sep);
      forall i | 0 <= i < |tail| ensures sep !in tail[i] { assert tail[i] == parts[i + 1]; }
      SplitUnique(s[1..], sep, tail);
      assert parts == [[]] + tail;
    } else {
      var p0 := parts[0];
      var shorter := [p0[1..]] + parts[1..];
      assert p0 == [p0[0]] + p0[1..];
      assert Join(parts[1..], sep) == Join(shorter[1..], sep) by { assert shorter[1..] == parts[1..]; }
      assert s == [p0[0]] + (p0[1..] + [sep] + Join(parts[1..], sep));
      assert Join(shorter, sep) == p0[1..] + [sep] + Join(shorter[1..], sep);
      assert s[0] == p0[0] && s[1..] == Join(shorter, sep);
      forall i | 0 <= i < |shorter| ensures sep !in shorter[i] {
        if i > 0 { assert shorter[i] == parts[i]; }
      }
      SplitUnique(s[1..], sep, shorter);
      var rest := Split(s[1..], sep);
      assert p0[0] != sep;
      assert rest == shorter;
      assert parts == [[s[0]] + rest[0]] + rest[1..];
    }
  }

  /**
   * `authorization.split(' ')[1]`: the segment after the first space, up to
   * the next space or the end, if there is a space at all.
   */
  function BearerToken(h: string): (r: Option<string>)
    ensures r.Some? <==> ' ' in h
    ensures r.Some? ==> ' ' !in r.value
    ensures r.Some? ==> exists i :: SegmentAt(h, i, r.value)
  {
    var parts := Split(h, ' ');
    if |parts| >= 2 then
      SecondSegment(h, parts);
      Some(parts[1])
    else None
  }

  /** `h[i]` is the first space of `h`, and `seg` runs from just after it to the next space or the end. */
  predicate SegmentAt(h: string, i: int, seg: string) {
    && 0 <= i < |h| && h[i] == ' ' && ' ' !in h[..i]
    && i + 1 + |seg| <= |h| && h[i + 1..i + 1 + |seg|] == seg
    && (i + 1 + |seg| == |h| || h[i + 1 + |seg|] == ' ')
  }

  /** The second part of a split sits between the first separator and the next one, or the end. */
  lemma SecondSegment(h: string, parts: seq<string>)
    requires parts == Split(h, ' ') && |parts| >= 2
    ensures SegmentAt(h, |parts[0]|, parts[1])
  {
    var tail := parts[1..];
    var b: string := if |tail| == 1 then [] else [' '] + Join(tail[1..], ' ');
    assert Join(parts, ' ') == parts[0] + [' '] + Join(tail, ' ');
    assert Join(tail, ' ') == tail[0] + b;
    SegmentOfConcat(parts[0], parts[1], b);
  }

  /** A space-free prefix, a space, `seg`, then the end or another space. */
  lemma SegmentOfConcat(a: string, seg: string, b: string)
    requires ' ' !in a && (b == [] || b[0] == ' ')
    ensures SegmentAt(a + [' '] + seg + b, |a|, seg)
  {
    var h := a + [' '] + seg + b;
    assert h[..|a|] == a;
    assert h[|a| + 1..|a| + 1 + |seg|] == seg;
  }

  /**
   * `protect`: a header that is missing or does not start with `Bearer`
   * gives 401, as does a token that fails verification or a lookup that
   * throws; otherwise `req.user` is set to whatever the lookup found, null
   * included, and the request continues.
   */
  function Protect(authorization: Option<string>, verify: string -> Option<UserId>,
                   findById: UserId -> Lookup): (d: Decision)
    ensures d.Deny? ==> d.error == Unauthorized
    ensures authorization.None? ==> d.Deny?
    ensures authorization.Some? && !("Bearer" <= authorization.value) ==> d.Deny?
    ensures d.Continue? ==>
      && authorization.Some? && "Bearer" <= authorization.value
      && BearerToken(authorization.value).Some?
      && verify(BearerToken(authorization.value).value).Some?
    ensures authorization.Some? && "Bearer" <= authorization.value && BearerToken(authorization.value).Some? ==>
      var id := verify(BearerToken(authorization.value).value);
      && (id.None? ==> d.Deny?)
      && (id.Some? && findById(id.value).Found? ==> d == Continue(Some(findById(id.value).user)))
      && (id.Some? && findById(id.value).Absent? ==> d == Continue(None))
      && (id.Some? && findById(id.value).Failed? ==> d.Deny?)
  {
    if authorization.None? || !("Bearer" <= authorization.value) then Deny(Unauthorized)
    else
      match BearerToken(authorization.value)
      case None => Deny(Unauthorized)
      case Some(token) =>
        match verify(token)
        case None => Deny(Unauthorized)
        case Some(id) =>
          match findById(id)
          case Found(u) => Continue(Some(u))
          case Absent => Continue(None)
          case Failed => Deny(Unauthorized)
  }

  /**
   * `protectUser`: no user id in the path gives 401, an unknown id 404 and
   * a lookup that throws 500; a found user is attached and the request
   * continues.
   */
  function ProtectUser(userId: Option<string>, findById: UserId -> Lookup): (d: Decision)
    ensures userId.None? || userId.value == "" ==> d == Deny(Unauthorized)
    ensures userId.Some? && userId.value != "" ==>
      && (findById(userId.value).Found? <==> d.Continue?)
      && (findById(userId.value).Found? ==> d == Continue(Some(findById(userId.value).user)))
      && (findById(userId.value).Absent? <==> d == Deny(NotFound))
      && (findById(userId.value).Failed? <==> d == Deny(Internal))
    ensures d.Continue? ==> d.user.Some?
  {
    if userId.None? || userId.value == "" then Deny(Unauthorized)
    else
      match findById(userId.value)
      case Found(u) => Continue(Some(u))
      case Absent => Deny(NotFound)
      case Failed => Deny(Internal)
  }

  /**
   * A route guarded by `protect` and then `authorize(roles)`: the handler
   * runs with the user exactly when `protect` attached a user whose role is
   * in `roles`. A null `req.user` makes `authorize` throw, which Express
   * answers with 500.
   */
  function Guard(d: Decision, roles: seq<string>): (r: Result<User>)
    ensures r.Ok? <==> d.Continue? && d.user.Some? && d.user.value.role in roles
    ensures r.Ok? ==> d.user == Some(r.value)
    ensures d.Deny? ==> r == Err(d.error)
    ensures d == Continue(None) ==> r == Err(Internal)
    ensures d.Continue? && d.user.Some? && d.user.value.role !in roles ==> r == Err(Forbidden)
  {
    match d
    case Deny(e) => Err(e)
    case Continue(None) => Err(Internal)
    case Continue(Some(u)) =>
      match Authorize(roles, u)
      case Deny(e) => Err(e)
      case Continue(_) => Ok(u)
  }
}
