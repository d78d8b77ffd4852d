/**
 * The client's session store: the raw token, the payload read out of it,
 * and the permission checks the pages use to decide what to show.
 */
module UserSession {
  import opened Wrappers

  /**
   * The payload fields the store reads. `perms` is None when the claim is
   * missing or is not an array.
   */
  datatype Payload = Payload(role: Option<string>, perms: Option<seq<string>>)

  /** The inverse of `split`: the parts glued back with the separator. */
  function Join(parts: seq<string>, sep: char): string
    requires |parts| >= 1
    decreases |parts|
  {
    if |parts| == 1 then parts[0] else parts[0] + [sep] + Join(parts[1..], sep)
  }

  /** JavaScript's `s.split(sep)` for a one-character separator. */
  function Split(s: string, sep: char): (r: seq<string>)
    ensures |r| >= 1
    ensures forall i :: 0 <= i < |r| ==> sep !in r[i]
    ensures Join(r, sep) == s
    decreases |s|
  {
    if s == [] then [""]
    else
      var rest := Split(s[1..], sep);
      if s[0] == sep then
        assert ([""] + rest)[1..] == rest;
        [""] + rest
      else
        var r := [[s[0]] + rest[0]] + rest[1..];
        assert r[1..] == rest[1..];
        assert s == [s[0]] + s[1..];
        r
  }

  /** Splitting undoes joining parts that do not contain the separator. */
  lemma {:induction false} SplitJoin(parts: seq<string>, sep: char)
    requires |parts| >= 1
    requires forall i :: 0 <= i < |parts| ==> sep !in parts[i]
    ensures Split(Join(parts, sep), sep) == parts
    decreases |Join(parts, sep)|
  {
    var head := parts[0];
    if head == [] {
      if |parts| > 1 {
        var tail := parts[1..];
        assert Join(parts, sep) == [sep] + Join(tail, sep);
        assert Join(parts, sep)[1..] == Join(tail, sep);
        SplitJoin(tail, sep);
        assert parts == [""] + tail;
      }
    } else {
      var shorter := parts[0 := head[1..]];
      JoinHead(parts, sep);
      assert shorter[1..] == parts[1..];
      assert Join(parts, sep) == [head[0]] + Join(shorter, sep);
      assert Join(parts, sep)[1..] == Join(shorter, sep);
      assert head[0] in head;
      assert forall i :: 0 <= i < |shorter| ==> sep !in shorter[i] by {
        forall i | 0 <= i < |shorter| ensures sep !in shorter[i] {
          if i == 0 {
            assert forall c :: c in head[1..] ==> c in head;
          }
        }
      }
      SplitJoin(shorter, sep);
      assert head == [head[0]] + head[1..];
      assert parts == [[head[0]] + shorter[0]] + shorter[1..];
    }
  }

  lemma JoinHead(parts: seq<string>, sep: char)
    requires |parts| >= 1 && parts[0] != []
    ensures Join(parts, sep) == [parts[0][0]] + Join(parts[0 := parts[0][1..]], sep)
  {
    var shorter := parts[0 := parts[0][1..]];
    assert shorter[1..] == parts[1..];
    assert parts[0] == [parts[0][0]] + shorter[0];
  }

  /** A string without the separator splits into itself alone. */
  lemma SplitWithoutSeparator(s: string, sep: char)
    ensures sep !in s ==> Split(s, sep) == [s]
  {
    if sep !in s {
      SplitJoin([s], sep);
    }
  }

  /** `const [, payload = ''] = token.split('.')`: the second segment, or "". */
  function SecondSegment(token: string): (r: string)
    ensures '.' !in r
    ensures '.' !in token ==> r == ""
  {
    var parts := Split(token, '.');
    SplitWithoutSeparator(token, '.');
    if |parts| >= 2 then parts[1] else ""
  }

  /** The second segment of a token built from dot-free parts is its second part. */
  lemma SecondSegmentOfJoin(parts: seq<string>)
    requires |parts| >= 2
    requires forall i :: 0 <= i < |parts| ==> '.' !in parts[i]
    ensures SecondSegment(Join(parts, '.')) == parts[1]
  {
    SplitJoin(parts, '.');
  }

  /** `s.replace(/from/g, to)` for single characters. */
  function ReplaceAll(s: string, from: char, to: char): (r: string)
    ensures |r| == |s|
    ensures forall i :: 0 <= i < |s| ==> r[i] == (if s[i] == from then to else s[i])
    decreases |s|
  {
    if s == [] then [] else [if s[0] == from then to else s[0]] + ReplaceAll(s[1..], from, to)
  }

  /** base64url to base64: `-` becomes `+` and `_` becomes `/`. */
  function ToBase64(segment: string): (r: string)
    ensures |r| == |segment|
    ensures '-' !in r && '_' !in r
    ensures forall i :: 0 <= i < |segment| ==>
      r[i] == (if segment[i] == '-' then '+' else if segment[i] == '_' then '/' else segment[i])
  {
    ReplaceAll(ReplaceAll(segment, '-', '+'), '_', '/')
  }

  /**
   * `base64 + '==='.slice((base64.length + 3) % 4)`: the fewest `=` that make
   * the length a multiple of four.
   */
  function Pad(b: string): (r: string)
    ensures |r| % 4 == 0
    ensures |b| <= |r| < |b| + 4
    ensures r[..|b|] == b
    ensures forall i :: |b| <= i < |r| ==> r[i] == '='
  {
    b + "==="[(|b| + 3) % 4..]
  }

  /**
   * `decodeJwtPayload`: null when the token has no second segment or it is
   * empty; otherwise the segment, rewritten to padded base64, is handed to
   * `decode`, which stands for `atob` followed by `JSON.parse` and is None
   * when either throws.
   */
  function DecodeJwtPayload(token: string, decode: string -> Option<Payload>): (r: Option<Payload>)
    ensures SecondSegment(token) == "" ==> r == None
    ensures SecondSegment(token) != "" ==> r == decode(Pad(ToBase64(SecondSegment(token))))
    ensures r.Some? ==> exists padded :: decode(padded) == r && '-' !in padded && '_' !in padded && |padded| % 4 == 0
  {
    var segment := SecondSegment(token);
    if segment == "" then None
    else
      var padded := Pad(ToBase64(segment));
      assert forall i :: 0 <= i < |padded| ==> padded[i] != '-' && padded[i] != '_' by {
        forall i | 0 <= i < |padded|
          ensures padded[i] != '-' && padded[i] != '_'
        {
          if i < |segment| {
            assert padded[i] == padded[..|segment|][i];
          }
        }
      }
      decode(padded)
  }

  /** JavaScript's `xs.includes(x)`. */
  function Includes(xs: seq<string>, x: string): (r: bool)
    ensures r <==> x in xs
    decreases |xs|
  {
    if xs == [] then false else xs[0] == x || Includes(xs[1..], x)
  }

  function MaxLength(xs: seq<string>): (n: nat)
    ensures forall i :: 0 <= i < |xs| ==> |xs[i]| <= n
    decreases |xs|
  {
    if xs == [] then 0
    else
      var rest := MaxLength(xs[1..]);
      assert forall i :: 1 <= i < |xs| ==> xs[i] == xs[1..][i - 1];
      if |xs[0]| > rest then |xs[0]| else rest
  }

  /** A finite list of permissions always misses some permission. */
  function Unlisted(xs: seq<string>): (perm: string)
    ensures perm !in xs
  {
    seq(MaxLength(xs) + 1, _ => 'x')
  }

  class UserStore {
    var token: Option<string>
    var payload: Option<Payload>

    constructor ()
      ensures token == None && payload == None
    {
      token := None;
      payload := None;
    }

    /** Keeps the token as given and the payload decoded from it. */
    method SetUserFromToken(t: string, decode: string -> Option<Payload>)
      modifies this
      ensures token == Some(t)
      ensures payload == DecodeJwtPayload(t, decode)
    {
      var p := DecodeJwtPayload(t, decode);
      token, payload := Some(t), p;
    }

    /** Logs out: no token, no payload, hence no permission. */
    method Clear()
      modifies this
      ensures token == None && payload == None
      ensures forall perm :: !HasPerm(perm)
    {
      token, payload := None, None;
    }

    /**
     * No payload: false. Admin: every permission. Otherwise the permission
     * must be listed in an array-valued `perms`.
     */
    function HasPerm(perm: string): (r: bool)
      reads this
      ensures r <==> (payload.Some? &&
        (payload.value.role == Some("admin") || (payload.value.perms.Some? && perm in payload.value.perms.value)))
    {
      match payload
      case None => false
      case Some(p) =>
        if p.role == Some("admin") then true
        else
          match p.perms
          case None => false
          case Some(ps) => Includes(ps, perm)
    }

    /** An admin holds every permission; anyone else only the listed ones. */
    function IsAdmin(): (r: bool)
      reads this
      ensures r <==> forall perm :: HasPerm(perm)
      ensures !r && payload.Some? ==>
        forall perm :: HasPerm(perm) <==> payload.value.perms.Some? && perm in payload.value.perms.value
    {
      var r := payload.Some? && payload.value.role == Some("admin");
      var listed := if payload.Some? && payload.value.perms.Some? then payload.value.perms.value else [];
      assert !r ==> !HasPerm(Unlisted(listed));
      r
    }
  }
}
