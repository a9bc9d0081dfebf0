/** Shared vocabulary: optional values, the Python exceptions the parsers can
    raise, Python truthiness of optional strings, and first-match search. */
module Base {

  /** A JSON key that may be absent (or `None`). */
  datatype Option<+T> = None | Some(value: T)

  /** The exceptions the modelled Python code can raise on well-typed input. */
  datatype PyError = IndexError | AttributeError

  /** The result of Python code that either returns a value or raises. */
  datatype Outcome<+T> = Ok(value: T) | Raised(error: PyError) {
    predicate IsFailure() { Raised? }

    function PropagateFailure<U>(): Outcome<U>
      requires Raised?
    {
      Raised(error)
    }

    function Extract(): T
      requires Ok?
    {
      value
    }
  }

  /** Python truthiness of an optional string: `None` and `""` are falsy. */
  predicate Truthy(o: Option<string>) {
    o.Some? && o.value != ""
  }

  /** Python's `a or b` on two optional strings. */
  function Or(a: Option<string>, b: Option<string>): Option<string> {
    if Truthy(a) then a else b
  }

  /** How an f-string renders an optional string: `None` prints as "None". */
  function Render(o: Option<string>): string {
    if o.Some? then o.value else "None"
  }

  /** Index of the first element satisfying `p`: the meaning of every
      early-return `for` loop and of `next(x for x in s if p(x))`. */
  function FirstIndex<T>(s: seq<T>, p: T -> bool): (r: Option<nat>)
    ensures r.Some? ==> r.value < |s| && p(s[r.value])
    ensures r.Some? ==> forall k :: 0 <= k < r.value ==> !p(s[k])
    ensures r.None? <==> forall k :: 0 <= k < |s| ==> !p(s[k])
  {
    if s == [] then None
    else if p(s[0]) then Some(0)
    else match FirstIndex(s[1..], p)
      case None => None
      case Some(i) => Some(i + 1)
  }

  /** The first element satisfying `p`, else the first element: the
      "look for a preferred entry, otherwise take entry [0]" idiom. */
  function PreferredOrFirst<T>(s: seq<T>, p: T -> bool): (r: Option<T>)
    ensures r.None? <==> s == []
    ensures forall i :: 0 <= i < |s| && p(s[i]) && (forall k :: 0 <= k < i ==> !p(s[k]))
                        ==> r == Some(s[i])
    ensures (forall k :: 0 <= k < |s| ==> !p(s[k])) && s != [] ==> r == Some(s[0])
  {
    match FirstIndex(s, p)
    case Some(i) => Some(s[i])
    case None => if s == [] then None else Some(s[0])
  }

  /** Apply `f` to every element in order, stopping at the first that
      raises: the meaning of a loop that appends one result per element
      and lets an exception escape. */
  function Traverse<T, U>(s: seq<T>, f: T -> Outcome<U>): (r: Outcome<seq<U>>)
    ensures r.Ok? <==> forall k :: 0 <= k < |s| ==> f(s[k]).Ok?
    ensures r.Ok? ==> |r.value| == |s| && forall k :: 0 <= k < |s| ==> f(s[k]) == Ok(r.value[k])
    ensures forall i :: 0 <= i < |s| && f(s[i]).Raised? && (forall k :: 0 <= k < i ==> f(s[k]).Ok?)
                        ==> r == Raised(f(s[i]).error)
  {
    if s == [] then Ok([])
    else
      var head :- f(s[0]);
      var tail :- Traverse(s[1..], f);
      Ok([head] + tail)
  }

  /** Extending the input by one element that maps to Ok extends the
      results by that value. */
  lemma TraverseExtendOk<T, U>(s: seq<T>, f: T -> Outcome<U>, i: nat, out: seq<U>)
    requires i < |s| && Traverse(s[..i], f) == Ok(out) && f(s[i]).Ok?
    ensures Traverse(s[..i + 1], f) == Ok(out + [f(s[i]).value])
  {
    var t := s[..i + 1];
    var r := Traverse(t, f);
    assert forall k :: 0 <= k < i ==> t[k] == s[..i][k];
    assert forall k :: 0 <= k < i ==> f(t[k]) == Ok(out[k]);
    assert r.Ok?;
    assert r.value == out + [f(s[i]).value];
  }

  /** Once the inputs before an element all map to Ok, an element that
      raises makes the whole map raise its error. */
  lemma TraverseExtendRaised<T, U>(s: seq<T>, f: T -> Outcome<U>, i: nat)
    requires i < |s| && Traverse(s[..i], f).Ok? && f(s[i]).Raised?
    ensures Traverse(s, f) == Raised(f(s[i]).error)
  {
    assert forall k :: 0 <= k < i ==> s[..i][k] == s[k];
    assert forall k :: 0 <= k < i ==> f(s[k]).Ok?;
  }
}
