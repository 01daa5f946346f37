/** Shared vocabulary: document ids, optional fields, JavaScript truthiness
    of the few value kinds the back end tests with `||` and `!`, and the
    sequence helpers (lookup by id, filtering, joining) the controllers use. */
module Common {

  /** A document or sub-document id (a database ObjectId). */
  type Id = nat

  /** A field that may be absent (`undefined` in the document). */
  datatype Option<T> = None | Some(value: T) {
    function GetOr(default: T): T {
      match this
      case Some(v) => v
      case None => default
    }
  }

  /** The outcome of an operation that can fail with an error of type `E`. */
  datatype Result<T, E> = Ok(value: T) | Err(error: E)

  /** Applies `f` to every element, all or nothing: the first error aborts
      (`Promise.all` over a `map` whose callback may throw). */
  function MapResult<T, U, E>(s: seq<T>, f: T -> Result<U, E>): (r: Result<seq<U>, E>)
    ensures r.Ok? <==> forall i :: 0 <= i < |s| ==> f(s[i]).Ok?
    ensures r.Ok? ==> |r.value| == |s| && forall i :: 0 <= i < |s| ==> f(s[i]) == Ok(r.value[i])
    ensures r.Err? ==>
      exists i :: 0 <= i < |s| && f(s[i]) == Err(r.error) && forall j :: 0 <= j < i ==> f(s[j]).Ok?
  {
    if |s| == 0 then Ok([])
    else match f(s[0])
      case Err(e) => Err(e)
      case Ok(x) =>
        assert forall i :: 1 <= i < |s| ==> s[i] == s[1..][i - 1];
        match MapResult(s[1..], f)
        case Err(e) => Err(e)
        case Ok(rest) => Ok([x] + rest)
  }

  /** A string field is truthy when it is present and not empty. */
  predicate Truthy(s: Option<string>) {
    s.Some? && s.value != ""
  }

  /** A numeric field is truthy when it is present and not zero. */
  predicate TruthyNum(n: Option<int>) {
    n.Some? && n.value != 0
  }

  /** `s || fallback` for an optional string. */
  function OrStr(s: Option<string>, fallback: string): (r: string)
    ensures Truthy(s) ==> r == s.value
    ensures !Truthy(s) ==> r == fallback
  {
    if Truthy(s) then s.value else fallback
  }

  /** `n || fallback` for an optional number. */
  function OrNum(n: Option<int>, fallback: int): (r: int)
    ensures TruthyNum(n) ==> r == n.value
    ensures !TruthyNum(n) ==> r == fallback
  {
    if TruthyNum(n) then n.value else fallback
  }

  /** Position of the first element whose key is `id` (`array.find` by `_id`). */
  function IndexOf<T>(s: seq<T>, key: T -> Id, id: Id): (r: Option<nat>)
    ensures r.Some? ==> r.value < |s| && key(s[r.value]) == id
    ensures r.Some? ==> forall j :: 0 <= j < r.value ==> key(s[j]) != id
    ensures r.None? <==> forall j :: 0 <= j < |s| ==> key(s[j]) != id
  {
    if |s| == 0 then None
    else if key(s[0]) == id then Some(0)
    else match IndexOf(s[1..], key, id)
      case None => None
      case Some(k) => Some(k + 1)
  }

  /** The first element whose key is the given id (`array.find(x => x._id.equals(id))`);
      an absent id matches nothing. */
  function Buscar<T>(s: seq<T>, key: T -> Id, id: Option<Id>): (r: Option<T>)
    ensures r.Some? ==> r.value in s && id == Some(key(r.value))
    ensures r.Some? ==> exists k :: 0 <= k < |s| && s[k] == r.value && forall j :: 0 <= j < k ==> key(s[j]) != id.value
    ensures r.None? <==> id.None? || forall x :: x in s ==> key(x) != id.value
  {
    if id.None? then None
    else match IndexOf(s, key, id.value)
      case None => None
      case Some(k) => Some(s[k])
  }

  /** The elements of `s` that satisfy `p`, in order (`array.filter`). */
  function Keep<T>(s: seq<T>, p: T -> bool): (r: seq<T>)
    ensures |r| <= |s|
    ensures forall x :: x in r ==> x in s && p(x)
    ensures forall x :: x in s && p(x) ==> x in r
  {
    if |s| == 0 then []
    else if p(s[0]) then [s[0]] + Keep(s[1..], p)
    else Keep(s[1..], p)
  }

  /** `a` occurs in `b` in order, each element of `a` related by `rel` to
      the element of `b` it stands for. */
  predicate Embeds<T>(a: seq<T>, b: seq<T>, rel: (T, T) -> bool)
    decreases |b|
  {
    if |a| == 0 then true
    else if |b| == 0 then false
    else (rel(a[0], b[0]) && Embeds(a[1..], b[1..], rel)) || Embeds(a, b[1..], rel)
  }

  /** Keeping and then transforming the kept elements yields an in-order
      embedding of the original, provided each transformed element stands
      in `rel` to its source. */
  lemma {:induction false} KeepMapEmbeds<T>(s: seq<T>, p: T -> bool, f: T -> T, rel: (T, T) -> bool)
    requires forall x :: rel(f(x), x)
    ensures Embeds(MapSeq(Keep(s, p), f), s, rel)
  {
    if |s| > 0 {
      KeepMapEmbeds(s[1..], p, f, rel);
      if p(s[0]) {
        assert MapSeq(Keep(s, p), f) == [f(s[0])] + MapSeq(Keep(s[1..], p), f);
        assert MapSeq(Keep(s, p), f)[1..] == MapSeq(Keep(s[1..], p), f);
      } else {
        assert MapSeq(Keep(s, p), f) == MapSeq(Keep(s[1..], p), f);
        EmbedsSkip(MapSeq(Keep(s[1..], p), f), s, rel);
      }
    }
  }

  /** Dropping the first element of the target keeps an embedding. */
  lemma EmbedsSkip<T>(a: seq<T>, b: seq<T>, rel: (T, T) -> bool)
    requires |b| > 0 && Embeds(a, b[1..], rel)
    ensures Embeds(a, b, rel)
  {
  }

  /** `array.map`. */
  function MapSeq<T, U>(s: seq<T>, f: T -> U): (r: seq<U>)
    ensures |r| == |s|
    ensures forall i :: 0 <= i < |s| ==> r[i] == f(s[i])
  {
    seq(|s|, i requires 0 <= i < |s| => f(s[i]))
  }

  /** `parts.join(sep)`. */
  function Join(parts: seq<string>, sep: string): (r: string)
    ensures |parts| == 1 ==> r == parts[0]
    ensures |parts| == 0 ==> r == ""
  {
    if |parts| == 0 then ""
    else if |parts| == 1 then parts[0]
    else parts[0] + sep + Join(parts[1..], sep)
  }

  /** Length of a joined string: all parts plus one separator between
      each neighbouring pair. */
  lemma {:induction false} JoinLength(parts: seq<string>, sep: string)
    requires |parts| > 0
    ensures |Join(parts, sep)| == TotalLength(parts) + (|parts| - 1) * |sep|
  {
    if |parts| > 1 {
      JoinLength(parts[1..], sep);
    }
  }

  function TotalLength(parts: seq<string>): nat {
    if |parts| == 0 then 0 else |parts[0]| + TotalLength(parts[1..])
  }

  /** Integer ceiling of `a / b` for a non-negative `a` and positive `b`
      (`Math.ceil(a / b)`). */
  function CeilDiv(a: nat, b: nat): (r: nat)
    requires b > 0
    ensures r * b >= a
    ensures r == 0 || (r - 1) * b < a
  {
    (a + b - 1) / b
  }
}
