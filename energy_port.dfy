/** The energy port of a unit operation: a port whose connected object is a
    simulator-owned collection of parameters, indexed from 1, through which
    the unit reads and writes its work and its temperature bounds by name. */
module EnergyPort {
  import opened Common

  /** A parameter of the connected collection: its component name and value. */
  datatype Param = Param(name: string, value: real)

  /** The CAPE-OPEN port directions. */
  datatype PortDirection = Inlet | Outlet | InletOutlet

  /** The simulator's parameter collection (an ICapeCollection). Items are
      numbered from 1; asking for a number outside 1..Count throws. */
  class ParamCollection {
    var items: seq<Param>

    constructor (items: seq<Param>)
      ensures this.items == items
    {
      this.items := items;
    }

    /** `Count()`. */
    function Count(): (n: nat)
      reads this
      ensures n == |items|
    {
      |items|
    }

    /** `Item(k)` with an integer id, 1-based. */
    function Item(k: int): (r: Result<Param>)
      reads this
      ensures 1 <= k <= |items| ==> r == Ok(items[k - 1])
      ensures !(1 <= k <= |items|) ==> r == Err(ProviderFailure)
    {
      if 1 <= k <= |items| then Ok(items[k - 1]) else Err(ProviderFailure)
    }

    /** `Item(id)` with a string id: the first parameter of that name. */
    function ItemNamed(id: string): (r: Result<Param>)
      reads this
      ensures r.Ok? <==> exists i :: 0 <= i < |items| && items[i].name == id
      ensures r.Ok? ==> r.value.name == id && r.value in items
    {
      FirstWithName(items, id)
    }

    /** `((ICapeParameter)Item(k)).value = v`: sets the value of parameter `k`. */
    method SetValue(k: int, v: real) returns (r: Outcome)
      modifies this
      ensures 1 <= k <= |old(items)| ==>
                r == Pass && items == old(items)[k - 1 := old(items)[k - 1].(value := v)]
      ensures !(1 <= k <= |old(items)|) ==> r == Fail(ProviderFailure) && items == old(items)
    {
      if 1 <= k <= |items| {
        items := items[k - 1 := items[k - 1].(value := v)];
        r := Pass;
      } else {
        r := Fail(ProviderFailure);
      }
    }
  }

  function FirstWithName(items: seq<Param>, id: string): (r: Result<Param>)
    ensures r.Ok? <==> exists i :: 0 <= i < |items| && items[i].name == id
    ensures r.Ok? ==> r.value.name == id && r.value in items
  {
    if |items| == 0 then Err(ProviderFailure)
    else if items[0].name == id then Ok(items[0])
    else
      var r := FirstWithName(items[1..], id);
      assert forall i :: 0 < i < |items| ==> items[i] == items[1..][i - 1];
      r
  }

  // ---------------------------------------------------------------------------
  // Lookup by lower-cased name
  // ---------------------------------------------------------------------------

  /** The three names the port reads and writes. */
  const WorkKey := "work"
  const TemperatureLowKey := "temperaturelow"
  const TemperatureHighKey := "temperaturehigh"

  /** The parameter's name, lower-cased, equals `key`. */
  predicate Named(p: Param, key: string) {
    Lower(p.name) == key
  }

  /** The values of the parameters named `key`, in collection order (the LINQ
      `where … select x.value`). */
  function Matches(items: seq<Param>, key: string): seq<real> {
    if |items| == 0 then []
    else (if Named(items[0], key) then [items[0].value] else []) + Matches(items[1..], key)
  }

  /** What the named getters return for a connected collection: the sole
      matching value, 0 when there is none, an exception when there are more. */
  function SoleValue(items: seq<Param>, key: string): Result<real> {
    SingleOrDefault(Matches(items, key))
  }

  /** Parameter `i` is the only one named `key`. */
  predicate SoleMatch(items: seq<Param>, key: string, i: int)
    requires 0 <= i < |items|
  {
    Named(items[i], key) && forall j :: 0 <= j < |items| && j != i ==> !Named(items[j], key)
  }

  /** The getter's promise, case by case: no match gives 0, a sole match gives
      its value, two matches throw. */
  predicate GetterSpec(items: seq<Param>, key: string, r: Result<real>) {
    && ((forall i :: 0 <= i < |items| ==> !Named(items[i], key)) ==> r == Ok(0.0))
    && (forall i :: 0 <= i < |items| && SoleMatch(items, key, i) ==> r == Ok(items[i].value))
    && (forall i, j :: 0 <= i < j < |items| && Named(items[i], key) && Named(items[j], key) ==>
          r == Err(SequenceNotSingle))
  }

  lemma {:induction false} MatchesNone(items: seq<Param>, key: string)
    requires forall i :: 0 <= i < |items| ==> !Named(items[i], key)
    ensures Matches(items, key) == []
    decreases |items|
  {
    if |items| > 0 {
      assert !Named(items[0], key);
      MatchesNone(items[1..], key);
    }
  }

  lemma {:induction false} MatchesSole(items: seq<Param>, key: string, i: int)
    requires 0 <= i < |items| && SoleMatch(items, key, i)
    ensures Matches(items, key) == [items[i].value]
    decreases |items|
  {
    if i == 0 {
      MatchesNone(items[1..], key);
    } else {
      assert !Named(items[0], key);
      assert SoleMatch(items[1..], key, i - 1) by {
        forall j | 0 <= j < |items| - 1 && j != i - 1 ensures !Named(items[1..][j], key) {
          assert items[1..][j] == items[j + 1];
        }
      }
      MatchesSole(items[1..], key, i - 1);
    }
  }

  lemma {:induction false} MatchesAtLeastOne(items: seq<Param>, key: string, i: int)
    requires 0 <= i < |items| && Named(items[i], key)
    ensures |Matches(items, key)| >= 1
    decreases |items|
  {
    if i > 0 && !Named(items[0], key) {
      MatchesAtLeastOne(items[1..], key, i - 1);
    }
  }

  lemma {:induction false} MatchesTwo(items: seq<Param>, key: string, i: int, j: int)
    requires 0 <= i < j < |items| && Named(items[i], key) && Named(items[j], key)
    ensures |Matches(items, key)| >= 2
    decreases |items|
  {
    if i == 0 {
      MatchesAtLeastOne(items[1..], key, j - 1);
    } else if Named(items[0], key) {
      MatchesAtLeastOne(items[1..], key, j - 1);
    } else {
      MatchesTwo(items[1..], key, i - 1, j - 1);
    }
  }

  /** The LINQ query meets the getter's promise in every case. */
  lemma SoleValueSpec(items: seq<Param>, key: string)
    ensures GetterSpec(items, key, SoleValue(items, key))
  {
    if forall i :: 0 <= i < |items| ==> !Named(items[i], key) {
      MatchesNone(items, key);
    }
    forall i | 0 <= i < |items| && SoleMatch(items, key, i)
      ensures SoleValue(items, key) == Ok(items[i].value)
    {
      MatchesSole(items, key, i);
    }
    forall i, j | 0 <= i < j < |items| && Named(items[i], key) && Named(items[j], key)
      ensures SoleValue(items, key) == Err(SequenceNotSingle)
    {
      MatchesTwo(items, key, i, j);
    }
  }

  /** The first parameter named `key`, as the setters' search loop finds it. */
  function FirstNamed(items: seq<Param>, key: string): (r: Option<nat>)
    ensures r.Some? ==> r.value < |items| && Named(items[r.value], key) &&
                        forall j :: 0 <= j < r.value ==> !Named(items[j], key)
    ensures r.None? <==> forall j :: 0 <= j < |items| ==> !Named(items[j], key)
  {
    if |items| == 0 then None
    else if Named(items[0], key) then Some(0)
    else match FirstNamed(items[1..], key)
      case None => None
      case Some(i) => Some(i + 1)
  }

  // ---------------------------------------------------------------------------
  // The named setters
  // ---------------------------------------------------------------------------

  /** `items` with parameter `k` (0-based) set to `v`. */
  function WithValue(items: seq<Param>, k: nat, v: real): seq<Param>
    requires k < |items|
  {
    items[k := items[k].(value := v)]
  }

  /** The setter as written: it finds the first match at 0-based `index` but
      writes `Item(index)`, which is 1-based, so it sets the parameter before
      the match, and throws when the match is the first parameter. */
  function SetAsWritten(items: seq<Param>, key: string, v: real): (r: Result<seq<Param>>)
    ensures FirstNamed(items, key).None? ==> r == Err(CapeInvalidOperation)
    ensures FirstNamed(items, key) == Some(0) ==> r == Err(ProviderFailure)
    ensures FirstNamed(items, key).Some? && FirstNamed(items, key).value > 0 ==>
              r == Ok(WithValue(items, FirstNamed(items, key).value - 1, v))
    ensures r.Ok? ==> |r.value| == |items| &&
                      (exists k :: 0 <= k < |items| - 1 && Named(items[k + 1], key) && r.value == WithValue(items, k, v))
  {
    match FirstNamed(items, key)
    case None => Err(CapeInvalidOperation)
    case Some(index) =>
      if index == 0 then Err(ProviderFailure) else Ok(WithValue(items, index - 1, v))
  }

  /** The setter as intended: it writes the first parameter named `key`. */
  function SetIntended(items: seq<Param>, key: string, v: real): (r: Result<seq<Param>>)
    ensures r.Err? <==> FirstNamed(items, key).None?
    ensures r.Err? ==> r.error == CapeInvalidOperation
  {
    match FirstNamed(items, key)
    case None => Err(CapeInvalidOperation)
    case Some(index) => Ok(WithValue(items, index, v))
  }

  /** The intended setter changes only the value of the first match: names and
      length are kept, the first match now holds `v`, everything else is as
      before. */
  lemma SetIntendedWritesFirstMatch(items: seq<Param>, key: string, v: real)
    requires FirstNamed(items, key).Some?
    ensures var r := SetIntended(items, key, v);
            var k := FirstNamed(items, key).value;
            && r.Ok? && |r.value| == |items|
            && r.value[k] == Param(items[k].name, v)
            && (forall j :: 0 <= j < |items| && j != k ==> r.value[j] == items[j])
  {
  }

  /** Setting a name that occurs once and reading it back gives the value set. */
  lemma {:induction false} SetThenGet(items: seq<Param>, key: string, v: real, i: int)
    requires 0 <= i < |items| && SoleMatch(items, key, i)
    ensures SetIntended(items, key, v).Ok?
    ensures SoleValue(SetIntended(items, key, v).value, key) == Ok(v)
  {
    var after := SetIntended(items, key, v).value;
    assert FirstNamed(items, key) == Some(i);
    assert after == WithValue(items, i, v);
    assert SoleMatch(after, key, i) by {
      forall j | 0 <= j < |after| && j != i ensures !Named(after[j], key) {
        assert after[j] == items[j];
      }
    }
    MatchesSole(after, key, i);
  }

  /** A concrete case of the off-by-one: with `[T, Work]` the as-written
      setter changes T and leaves Work as it was; with Work alone it throws. */
  lemma SetAsWrittenMissesTarget()
    ensures SetAsWritten([Param("T", 1.0), Param("Work", 2.0)], WorkKey, 5.0) ==
            Ok([Param("T", 5.0), Param("Work", 2.0)])
    ensures SoleValue([Param("T", 5.0), Param("Work", 2.0)], WorkKey) == Ok(2.0)
    ensures SetAsWritten([Param("Work", 2.0)], WorkKey, 5.0) == Err(ProviderFailure)
    ensures SetIntended([Param("T", 1.0), Param("Work", 2.0)], WorkKey, 5.0) ==
            Ok([Param("T", 1.0), Param("Work", 5.0)])
  {
    assert Lower("T") == "t";
    assert Lower("Work") == "work";
    assert !Named(Param("T", 1.0), WorkKey);
    assert Named(Param("Work", 2.0), WorkKey);
    var after := [Param("T", 5.0), Param("Work", 2.0)];
    assert SoleMatch(after, WorkKey, 1);
    MatchesSole(after, WorkKey, 1);
    assert Matches(after, WorkKey) == [2.0];
    var before := [Param("T", 1.0), Param("Work", 2.0)];
    assert FirstNamed(before, WorkKey) == Some(1);
    assert WithValue(before, 0, 5.0) == after;
    assert WithValue(before, 1, 5.0) == [Param("T", 1.0), Param("Work", 5.0)];
  }

  // ---------------------------------------------------------------------------
  // The port
  // ---------------------------------------------------------------------------

  /** What a port may be asked to connect to. */
  datatype ConnectArg =
    | Collection(collection: ParamCollection)   // an ICapeCollection
    | NotCollection                             // null or any other object

  class CapeEnergyPort {
    const name: string
    const direction: PortDirection
    const description: Option<string>
    const canRename: bool
    var paramCollection: ParamCollection?

    /** A new energy port, not connected. */
    constructor (name: string, direction: PortDirection, description: Option<string>, canRename: bool)
      ensures this.name == name && this.direction == direction
      ensures this.description == description && this.canRename == canRename
      ensures !IsConnected()
    {
      this.name, this.direction, this.description, this.canRename := name, direction, description, canRename;
      paramCollection := null;
    }

    /** Whether a collection is attached; a port without one answers every
        indexer and `Count` with a null reference. */
    function IsConnected(): (b: bool)
      reads this, paramCollection
      ensures b <==> Count().Ok?
      ensures !b ==> forall index :: At(index) == Err(NullReference)
    {
      paramCollection != null
    }

    /** Drops the collection; disconnecting a disconnected port changes nothing. */
    method Disconnect()
      modifies this`paramCollection
      ensures !IsConnected()
      ensures old(!IsConnected()) ==> unchanged(this)
    {
      paramCollection := null;
    }

    /** Disconnects, then keeps the object when it is a collection; anything
        else is rejected and leaves the port disconnected. */
    method Connect(arg: ConnectArg) returns (r: Outcome)
      modifies this`paramCollection
      ensures arg.Collection? ==> r == Pass && IsConnected() && paramCollection == arg.collection
      ensures arg.NotCollection? ==> r == Fail(CapeBadArgument) && !IsConnected()
    {
      Disconnect();
      if arg.Collection? {
        paramCollection := arg.collection;
        r := Pass;
      } else {
        r := Fail(CapeBadArgument);
      }
    }

    /** A new port with the same identity, sharing this port's collection. */
    method Clone() returns (c: CapeEnergyPort)
      ensures fresh(c)
      ensures c.name == name && c.direction == direction
      ensures c.description == description && c.canRename == canRename
      ensures c.paramCollection == paramCollection
    {
      c := new CapeEnergyPort(name, direction, description, canRename);
      c.paramCollection := paramCollection;
    }

    /** `this[index]`: parameter `index` counted from 0. */
    function At(index: int): (r: Result<Param>)
      reads this, paramCollection
      ensures paramCollection == null ==> r == Err(NullReference)
      ensures paramCollection != null && 0 <= index < |paramCollection.items| ==>
                r == Ok(paramCollection.items[index])
      ensures paramCollection != null && !(0 <= index < |paramCollection.items|) ==> r.Err?
    {
      if paramCollection == null then Err(NullReference) else paramCollection.Item(index + 1)
    }

    /** `this[id]`: the collection's parameter named `id`. */
    function AtName(id: string): (r: Result<Param>)
      reads this, paramCollection
      ensures paramCollection == null ==> r == Err(NullReference)
      ensures paramCollection != null ==>
                (r.Ok? <==> exists i :: 0 <= i < |paramCollection.items| && paramCollection.items[i].name == id)
      ensures r.Ok? ==> r.value.name == id && r.value in paramCollection.items
    {
      if paramCollection == null then Err(NullReference) else paramCollection.ItemNamed(id)
    }

    /** `Count`. */
    function Count(): (r: Result<nat>)
      reads this, paramCollection
      ensures paramCollection == null <==> r.Err?
      ensures r.Ok? ==> r.value == |paramCollection.items|
    {
      if paramCollection == null then Err(NullReference) else Ok(paramCollection.Count())
    }

    /** The enumeration: `this[0]` to `this[Count - 1]`, in order. */
    method GetEnumerator() returns (r: Result<seq<Param>>)
      ensures paramCollection == null ==> r == Err(NullReference)
      ensures paramCollection != null ==> r.Ok? && |r.value| == |paramCollection.items|
      ensures r.Ok? ==> forall i :: 0 <= i < |r.value| ==> At(i) == Ok(r.value[i])
    {
      if paramCollection == null {
        return Err(NullReference);
      }
      var items: seq<Param> := [];
      var i := 0;
      while i < paramCollection.Count()
        invariant 0 <= i <= |paramCollection.items|
        invariant |items| == i
        invariant forall j :: 0 <= j < i ==> At(j) == Ok(items[j])
      {
        var item := At(i);
        items := items + [item.value];
        i := i + 1;
      }
      r := Ok(items);
    }

    /** The named getters' query over the enumeration. */
    function Lookup(key: string): (r: Result<real>)
      reads this, paramCollection
      ensures paramCollection == null ==> r == Err(NullReference)
      ensures paramCollection != null ==> GetterSpec(paramCollection.items, key, r)
    {
      if paramCollection == null then Err(NullReference)
      else
        SoleValueSpec(paramCollection.items, key);
        SoleValue(paramCollection.items, key)
    }

    /** The `Work` getter. */
    function Work(): (r: Result<real>)
      reads this, paramCollection
      ensures paramCollection == null ==> r == Err(NullReference)
      ensures paramCollection != null ==> GetterSpec(paramCollection.items, WorkKey, r)
    {
      Lookup(WorkKey)
    }

    /** The `TemperatureLow` getter. */
    function TemperatureLow(): (r: Result<real>)
      reads this, paramCollection
      ensures paramCollection == null ==> r == Err(NullReference)
      ensures paramCollection != null ==> GetterSpec(paramCollection.items, TemperatureLowKey, r)
    {
      Lookup(TemperatureLowKey)
    }

    /** The `TemperatureHigh` getter. */
    function TemperatureHigh(): (r: Result<real>)
      reads this, paramCollection
      ensures paramCollection == null ==> r == Err(NullReference)
      ensures paramCollection != null ==> GetterSpec(paramCollection.items, TemperatureHighKey, r)
    {
      Lookup(TemperatureHighKey)
    }

    /** The setters' search loop: the 0-based position of the first parameter
        whose lower-cased name is `key`, re-reading `Count` on every round. */
    method FindNamed(key: string) returns (r: Result<Option<nat>>)
      ensures paramCollection == null ==> r == Err(NullReference)
      ensures paramCollection != null ==> r == Ok(FirstNamed(paramCollection.items, key))
    {
      if paramCollection == null {
        return Err(NullReference);
      }
      var index: Option<nat> := None;
      var i := 0;
      while i < paramCollection.Count()
        invariant 0 <= i <= |paramCollection.items|
        invariant forall j :: 0 <= j < i ==> !Named(paramCollection.items[j], key)
      {
        var item := At(i);
        if Lower(item.value.name) == key {
          index := Some(i);
          break;
        }
        i := i + 1;
      }
      r := Ok(index);
    }

    /** A named setter as written: writes `Item(index)` for the match at
        0-based `index`. */
    method SetNamedAsWritten(key: string, value: real) returns (r: Outcome)
      modifies paramCollection
      ensures paramCollection == old(paramCollection)
      ensures paramCollection == null ==> r == Fail(NullReference)
      ensures paramCollection != null ==>
                match SetAsWritten(old(paramCollection.items), key, value)
                case Ok(items) => r == Pass && paramCollection.items == items
                case Err(e) => r == Fail(e) && paramCollection.items == old(paramCollection.items)
    {
      var found := FindNamed(key);
      if found.Err? {
        return Fail(found.error);
      }
      if found.value.None? {
        return Fail(CapeInvalidOperation);
      }
      r := paramCollection.SetValue(found.value.value, value);
    }

    /** A named setter as intended: writes `Item(index + 1)`, the match itself. */
    method SetNamed(key: string, value: real) returns (r: Outcome)
      modifies paramCollection
      ensures paramCollection == old(paramCollection)
      ensures paramCollection == null ==> r == Fail(NullReference)
      ensures paramCollection != null ==>
                match SetIntended(old(paramCollection.items), key, value)
                case Ok(items) => r == Pass && paramCollection.items == items
                case Err(e) => r == Fail(e) && paramCollection.items == old(paramCollection.items)
    {
      var found := FindNamed(key);
      if found.Err? {
        return Fail(found.error);
      }
      if found.value.None? {
        return Fail(CapeInvalidOperation);
      }
      r := paramCollection.SetValue(found.value.value + 1, value);
    }

    /** The `Work` setter as written: it writes the parameter before the match. */
    method SetWork(value: real) returns (r: Outcome)
      modifies paramCollection
      ensures paramCollection == old(paramCollection)
      ensures paramCollection == null ==> r == Fail(NullReference)
      ensures paramCollection != null ==>
                match SetAsWritten(old(paramCollection.items), WorkKey, value)
                case Ok(items) => r == Pass && paramCollection.items == items
                case Err(e) => r == Fail(e) && paramCollection.items == old(paramCollection.items)
    {
      r := SetNamedAsWritten(WorkKey, value);
    }

    /** The `TemperatureLow` setter as written: it writes the parameter before the match. */
    method SetTemperatureLow(value: real) returns (r: Outcome)
      modifies paramCollection
      ensures paramCollection == old(paramCollection)
      ensures paramCollection == null ==> r == Fail(NullReference)
      ensures paramCollection != null ==>
                match SetAsWritten(old(paramCollection.items), TemperatureLowKey, value)
                case Ok(items) => r == Pass && paramCollection.items == items
                case Err(e) => r == Fail(e) && paramCollection.items == old(paramCollection.items)
    {
      r := SetNamedAsWritten(TemperatureLowKey, value);
    }

    /** The `TemperatureHigh` setter as written: it writes the parameter before the match. */
    method SetTemperatureHigh(value: real) returns (r: Outcome)
      modifies paramCollection
      ensures paramCollection == old(paramCollection)
      ensures paramCollection == null ==> r == Fail(NullReference)
      ensures paramCollection != null ==>
                match SetAsWritten(old(paramCollection.items), TemperatureHighKey, value)
                case Ok(items) => r == Pass && paramCollection.items == items
                case Err(e) => r == Fail(e) && paramCollection.items == old(paramCollection.items)
    {
      r := SetNamedAsWritten(TemperatureHighKey, value);
    }
  }
}
