/**
 * The variable parameter lists of the loop and field components: an input
 * list and an output list of ports, the insert and remove operations the
 * host's parameter collection offers (AddInput/AddOutput at an index,
 * RemoveInput/RemoveOutput), the user-name copy of the rename handlers and
 * the decimal numbering of fallback names such as `D{i-1}`.
 */
module Ports {
  import opened Wrappers

  datatype Side = Input | Output

  /**
   * One port: its name, the name the user gave it, the fallback name shown
   * when it has none, and whether it may be left unconnected
   * (Requirement.MayBeMissing).
   */
  datatype Port = Port(name: string, userName: string, fallbackName: string, optional: bool)

  /** `new GenericParameter(Nomen.Empty)`: the port a creation inserts. */
  const Blank: Port := Port("", "", "", false)

  /** The two parameter lists of a component. */
  datatype Params = Params(inputs: seq<Port>, outputs: seq<Port>)

  /** A position in one of the lists; an index may be computed out of range. */
  datatype Slot = Slot(side: Side, index: int)

  function Ports(l: Params, side: Side): seq<Port>
  {
    if side == Input then l.inputs else l.outputs
  }

  predicate Exists(l: Params, at: Slot)
  {
    0 <= at.index < |Ports(l, at.side)|
  }

  /** A position the host may insert at: before any port or after the last. */
  predicate Insertable(l: Params, at: Slot)
  {
    0 <= at.index <= |Ports(l, at.side)|
  }

  function PortAt(l: Params, at: Slot): Port
    requires Exists(l, at)
  {
    Ports(l, at.side)[at.index]
  }

  /** Where index k of a list lands after an insertion at index i. */
  function Shift(k: int, i: int): int
  {
    if k < i then k else k + 1
  }

  /** `s` with `x` inserted so that it lands at index i. */
  function Insert<T>(s: seq<T>, i: nat, x: T): (r: seq<T>)
    requires i <= |s|
    ensures |r| == |s| + 1 && r[i] == x
    ensures forall k :: 0 <= k < |s| ==> r[Shift(k, i)] == s[k]
  {
    s[..i] + [x] + s[i..]
  }

  /** `s` without its element at index i. */
  function Remove<T>(s: seq<T>, i: nat): (r: seq<T>)
    requires i < |s|
    ensures |r| == |s| - 1
    ensures forall k :: 0 <= k < |r| ==> r[k] == s[Shift(k, i)]
  {
    s[..i] + s[i + 1..]
  }

  /** Removing what was just inserted gives the list back. */
  lemma RemoveInsert<T>(s: seq<T>, i: nat, x: T)
    requires i <= |s|
    ensures Remove(Insert(s, i, x), i) == s
  {
    assert Remove(Insert(s, i, x), i) == s[..i] + s[i..];
    assert s[..i] + s[i..] == s;
  }

  /** Inserting at the index just removed replaces that element. */
  lemma InsertRemove<T>(s: seq<T>, i: nat, x: T)
    requires i < |s|
    ensures Insert(Remove(s, i), i, x) == s[i := x]
  {
    var r := Insert(Remove(s, i), i, x);
    assert forall k :: 0 <= k < |s| ==> r[k] == s[i := x][k];
  }

  /** The lists with the user name of the port at `at` replaced. */
  function WithUserName(l: Params, at: Slot, name: string): (r: Params)
    requires Exists(l, at)
    ensures Exists(r, at) && PortAt(r, at) == PortAt(l, at).(userName := name)
    ensures |r.inputs| == |l.inputs| && |r.outputs| == |l.outputs|
    ensures forall other :: Exists(l, other) && other != at ==> PortAt(r, other) == PortAt(l, other)
  {
    var p := PortAt(l, at).(userName := name);
    if at.side == Input then l.(inputs := l.inputs[at.index := p])
    else l.(outputs := l.outputs[at.index := p])
  }

  /**
   * A rename handler after the port at `at` was renamed: when the port has a
   * partner, the partner takes its user name; `Parameters.Input(i)` or
   * `Output(i)` with i outside the list throws, reported as Err with the
   * slot asked for.
   */
  function Mirror(l: Params, at: Slot, partner: Option<Slot>): (r: Result<Params, Slot>)
    requires Exists(l, at)
    ensures partner.None? ==> r == Ok(l)
    ensures r.Err? <==> partner.Some? && !Exists(l, partner.value)
    ensures r.Err? ==> r.error == partner.value
    ensures r.Ok? && partner.Some? ==>
      Exists(r.value, partner.value) && PortAt(r.value, partner.value).userName == PortAt(l, at).userName
  {
    match partner
    case None => Ok(l)
    case Some(p) =>
      if Exists(l, p) then Ok(WithUserName(l, p, PortAt(l, at).userName)) else Err(p)
  }

  /** Decimal digit d. */
  function Digit(d: nat): char
    requires d < 10
  {
    (48 + d) as char
  }

  /** The decimal numeral of n, as C# formats a non-negative int. */
  function Decimal(n: nat): (r: string)
    ensures |r| >= 1
    ensures |r| == 1 <==> n < 10
  {
    if n < 10 then [Digit(n)] else Decimal(n / 10) + [Digit(n % 10)]
  }

  /** Different numbers have different numerals. */
  lemma {:induction false} DecimalInjective(a: nat, b: nat)
    requires Decimal(a) == Decimal(b)
    ensures a == b
  {
    var s := Decimal(a);
    assert Digit(a % 10) == s[|s| - 1] == Digit(b % 10);
    assert (Digit(a % 10) as int) == 48 + a % 10;
    assert (Digit(b % 10) as int) == 48 + b % 10;
    if a >= 10 {
      assert Decimal(a / 10) == s[..|s| - 1] == Decimal(b / 10);
      DecimalInjective(a / 10, b / 10);
    }
  }

  /** A fallback name: a letter followed by a number, as in `D{i-1}` or `V{i}`. */
  function Numbered(letter: char, n: nat): string
  {
    [letter] + Decimal(n)
  }

  /** Two numbered names with the same letter coincide only for the same number. */
  lemma NumberedInjective(letter: char, a: nat, b: nat)
    ensures Numbered(letter, a) == Numbered(letter, b) <==> a == b
  {
    if Numbered(letter, a) == Numbered(letter, b) {
      assert Decimal(a) == Numbered(letter, a)[1..];
      assert Decimal(b) == Numbered(letter, b)[1..];
      DecimalInjective(a, b);
    }
  }
}
