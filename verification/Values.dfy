/** The dynamically typed values that records, operator states and snapshots are made of. */
module Values {
  import opened Wrappers

  /** What a state dictionary or a decoded snapshot may hold. A mapping keeps its entry order. */
  datatype Value =
    | Null
    | Flag(flag: bool)
    | Whole(whole: int)
    | Decimal(decimal: real)
    | Text(text: string)
    | Listed(items: seq<Value>)
    | Mapped(entries: seq<(Value, Value)>)

  type Fields = map<string, Value>

  /** Why a conversion raises. */
  datatype Misfit = NotANumber | NotText | NotAList | NotAMapping | BelowZero

  /** A stream record: its numeric fields and its text fields. */
  datatype Record = Record(numbers: map<string, real>, texts: map<string, string>) {

    function Number(key: string, default: real): real {
      if key in numbers then numbers[key] else default
    }

    function Label(key: string, default: string): string {
      if key in texts then texts[key] else default
    }
  }

  /** A record and what the clock reads when it is processed. */
  datatype Arrival = Arrival(record: Record, clock: real)

  /** `m.get(key, default)`. */
  function Get(m: Fields, key: string, default: Value): Value {
    if key in m then m[key] else default
  }

  /** Exactly the named fields, null where the state has none: what a snapshot keeps of a state. */
  function Projected(state: Fields, fields: set<string>): Fields {
    map k | k in fields :: Get(state, k, Null)
  }

  /** Two states hold the same under every key of the first one outside `fields`. */
  predicate AgreeOutside(a: Fields, b: Fields, fields: set<string>) {
    forall k :: k in a && k !in fields ==> k in b && a[k] == b[k]
  }

  /** `float(v)`. */
  function AsReal(v: Value): Result<real, Misfit> {
    match v
    case Decimal(x) => Success(x)
    case Whole(n) => Success(n as real)
    case Flag(b) => Success(if b then 1.0 else 0.0)
    case _ => Failure(NotANumber)
  }

  /** Rounding toward zero. */
  function Truncated(x: real): int {
    if x < 0.0 then -(-x).Floor else x.Floor
  }

  /** `int(v)` where a count or a size is expected. */
  function AsNat(v: Value): Result<nat, Misfit> {
    var n :=
      match v
      case Decimal(x) => Truncated(x)
      case Whole(n) => n
      case Flag(b) => if b then 1 else 0
      case _ => 0;
    if !(v.Decimal? || v.Whole? || v.Flag?) then Failure(NotANumber)
    else if n < 0 then Failure(BelowZero)
    else Success(n)
  }

  function ListOf(xs: seq<real>): Value {
    Listed(seq(|xs|, i requires 0 <= i < |xs| => Decimal(xs[i])))
  }

  function RealsIn(items: seq<Value>): Result<seq<real>, Misfit> {
    if items == [] then Success([])
    else
      var last := AsReal(items[|items| - 1]);
      var init := RealsIn(items[..|items| - 1]);
      if init.Failure? then init
      else if last.Failure? then Failure(last.error)
      else Success(init.value + [last.value])
  }

  /** A list of numbers. */
  function AsReals(v: Value): Result<seq<real>, Misfit> {
    if v.Listed? then RealsIn(v.items) else Failure(NotAList)
  }

  /** An absent number is stored as null. */
  function OptionalNumber(x: Option<real>): Value {
    if x.None? then Null else Decimal(x.value)
  }

  lemma {:induction false} RealsInListOf(xs: seq<real>)
    ensures AsReals(ListOf(xs)) == Success(xs)
  {
    if xs != [] {
      var init := xs[..|xs| - 1];
      RealsInListOf(init);
      assert ListOf(xs).items[..|xs| - 1] == ListOf(init).items;
      assert xs == init + [xs[|xs| - 1]];
    }
  }

  lemma ListOfInjective(xs: seq<real>, ys: seq<real>)
    requires ListOf(xs) == ListOf(ys)
    ensures xs == ys
  {
    RealsInListOf(xs);
    RealsInListOf(ys);
  }
}
