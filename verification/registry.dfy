/** The strategy registry: a name-to-class table, lookup by name, the
    listing of every registered strategy with its display name and
    description, and registration of further classes. The table is a
    value here: registering returns the new table. */
module Registry {
  import opened Common
  import opened StableSort
  import SR = SimpleRanking
  import MR = MultiRound
  import RA = ReasoningAware
  import WV = WeightedVoting

  /** The four strategy classes the system ships with. */
  datatype Kind = SimpleRanking | MultiRound | ReasoningAware | WeightedVoting

  /** The name each built-in strategy is registered under. */
  function Key(k: Kind): string
  {
    match k
    case SimpleRanking => SR.Key
    case MultiRound => MR.Key
    case ReasoningAware => RA.Key
    case WeightedVoting => WV.Key
  }

  /** A class passed to the registry: a built-in one, or another class
      whose default instance has the given display name and description
      and which may or may not extend `EnsembleStrategy`. */
  datatype StrategyClass = Builtin(kind: Kind) | Other(title: string, description: string, extendsBase: bool)

  /** `issubclass(strategy_class, EnsembleStrategy)`. */
  predicate IsStrategy(c: StrategyClass)
  {
    c.Builtin? || c.extendsBase
  }

  /** `_STRATEGIES`, in insertion order. */
  type Table = seq<(string, StrategyClass)>

  const Initial: Table := [
    (SR.Key, Builtin(SimpleRanking)),
    (MR.Key, Builtin(MultiRound)),
    (RA.Key, Builtin(ReasoningAware)),
    (WV.Key, Builtin(WeightedVoting))
  ]

  function Keys(t: Table): seq<string>
  {
    MapSeq(t, (e: (string, StrategyClass)) => e.0)
  }

  /** The first entry with a given name is the one found. */
  lemma LookupAt<V>(t: seq<(string, V)>, i: nat)
    requires i < |t|
    requires forall j :: 0 <= j < i ==> t[j].0 != t[i].0
    ensures Lookup(t, t[i].0) == Some(t[i].1)
  {
  }

  /** The initial table registers each built-in strategy under its own key. */
  lemma InitialHoldsBuiltins(k: Kind)
    ensures Lookup(Initial, Key(k)) == Some(Builtin(k))
  {
    var i := match k
      case SimpleRanking => 0
      case MultiRound => 1
      case ReasoningAware => 2
      case WeightedVoting => 3;
    assert Initial[i] == (Key(k), Builtin(k));
    forall j | 0 <= j < i
      ensures Initial[j].0 != Key(k)
    {
      assert Initial[j].0[0] != Key(k)[0];
    }
    LookupAt(Initial, i);
  }

  /** The initial table holds exactly the four built-in strategies. */
  lemma InitialKeys(name: string)
    ensures Lookup(Initial, name).Some? <==> exists k :: Key(k) == name
    ensures Lookup(Initial, name).Some? ==> Lookup(Initial, name).value.Builtin?
  {
    if exists k :: Key(k) == name {
      var k :| Key(k) == name;
      InitialHoldsBuiltins(k);
    }
    if Lookup(Initial, name).Some? {
      var i :| 0 <= i < |Initial| && Initial[i] == (name, Lookup(Initial, name).value);
      assert Key(Initial[i].1.kind) == name;
    }
  }

  /** `', '.join(names)`. */
  function Join(names: seq<string>, sep: string): string
  {
    if |names| == 0 then ""
    else if |names| == 1 then names[0]
    else names[0] + sep + Join(names[1..], sep)
  }

  /** An instance of a registered class, built with the given configuration. */
  datatype Instance<C> = Instance(cls: StrategyClass, config: Option<C>)

  /** `get_strategy`: an unknown name is a `ValueError` listing the registered names. */
  function GetStrategy<C>(t: Table, name: string, config: Option<C>): (r: Result<Instance<C>>)
  {
    match Lookup(t, name)
    case None => Err("Unknown strategy '" + name + "'. Available: " + Join(Keys(t), ", "))
    case Some(cls) => Ok(Instance(cls, config))
  }

  /** The start of the `ValueError` message. */
  const Unknown: string := "Unknown strategy '"

  /** A name resolves exactly when it is registered; the instance is of the
      first class registered under it and carries the caller's configuration;
      the error message names the unknown strategy. */
  lemma GetStrategySpec<C>(t: Table, name: string, config: Option<C>)
    ensures GetStrategy(t, name, config).Ok? <==> name in Keys(t)
    ensures GetStrategy(t, name, config).Ok? ==>
      Some(GetStrategy(t, name, config).value.cls) == Lookup(t, name) &&
      GetStrategy(t, name, config).value.config == config
    ensures GetStrategy(t, name, config).Err? ==>
      |Unknown| + |name| <= |GetStrategy(t, name, config).error| &&
      GetStrategy(t, name, config).error[..|Unknown| + |name|] == Unknown + name
  {
    var keys := Keys(t);
    if name in keys {
      var i :| 0 <= i < |keys| && keys[i] == name;
      assert t[i].0 == name;
    }
  }

  /** The name `nonexistent` is rejected and `simple` is accepted by the initial table. */
  lemma SuiteNames<C>(config: Option<C>)
    ensures GetStrategy(Initial, "nonexistent", config).Err?
    ensures GetStrategy(Initial, "simple", config) == Ok(Instance(Builtin(SimpleRanking), config))
  {
    InitialKeys("nonexistent");
    forall k: Kind
      ensures Key(k) != "nonexistent"
    {
      assert Key(k)[0] != 'n';
    }
    InitialHoldsBuiltins(SimpleRanking);
  }

  /* ---------------- Listing ---------------- */

  /** A listing entry: `get_name()` and `get_description()` of a default instance. */
  datatype Info = Info(name: string, description: string)

  /** The display name and description of a class's default instance. The
      reasoning-aware description formats its default weights 0.4 and 0.6
      as percentages. */
  function Describe(c: StrategyClass): Info
  {
    match c
    case Builtin(SimpleRanking) => Info(SR.Name, SR.Description)
    case Builtin(MultiRound) => Info(MR.Name(MR.Configure(None)), MR.Description(MR.Configure(None)))
    case Builtin(ReasoningAware) => Info(RA.Name, "Dual ranking: reasoning quality (40%) + answer quality (60%)")
    case Builtin(WeightedVoting) => Info(WV.Name, WV.Description)
    case Other(title, description, _) => Info(title, description)
  }

  function Entry(e: (string, StrategyClass)): (string, Info)
  {
    (e.0, Describe(e.1))
  }

  /** `list_strategies`. */
  function ListStrategies(t: Table): seq<(string, Info)>
  {
    MapSeq(t, Entry)
  }

  /** The listing has one entry per registered name, in registration order,
      each describing the class registered under it. */
  lemma ListStrategiesSpec(t: Table)
    ensures MapSeq(ListStrategies(t), (e: (string, Info)) => e.0) == Keys(t)
    ensures forall i :: 0 <= i < |t| ==> ListStrategies(t)[i].1 == Describe(t[i].1)
  {
  }

  /* ---------------- Registration ---------------- */

  /** `d[name] = value` on an insertion-ordered dict: an existing key keeps
      its place, a new one is appended. */
  function Put(t: Table, name: string, c: StrategyClass): (r: Table)
    ensures |r| == if name in Keys(t) then |t| else |t| + 1
  {
    if |t| == 0 then [(name, c)]
    else if t[0].0 == name then [(name, c)] + t[1..]
    else
      assert Keys(t) == [t[0].0] + Keys(t[1..]);
      [t[0]] + Put(t[1..], name, c)
  }

  /** The outcome of `register_strategy`: the table afterwards and the error raised, if any. */
  datatype Registered = Registered(table: Table, error: Option<string>)

  /** `register_strategy`: a class that does not extend `EnsembleStrategy`
      is a `TypeError`. */
  function Register(t: Table, name: string, c: StrategyClass): Registered
  {
    if !IsStrategy(c) then Registered(t, Some("must extend EnsembleStrategy"))
    else Registered(Put(t, name, c), None)
  }

  /** After a put, the name maps to the class and every other name maps to
      what it did before; the names already present keep their order. */
  lemma {:induction false} PutSpec(t: Table, name: string, c: StrategyClass, other: string)
    requires other != name
    ensures Lookup(Put(t, name, c), name) == Some(c)
    ensures Lookup(Put(t, name, c), other) == Lookup(t, other)
    ensures Keys(t) <= Keys(Put(t, name, c))
  {
    if |t| > 0 && t[0].0 != name {
      PutSpec(t[1..], name, c, other);
      assert Keys(t) == [t[0].0] + Keys(t[1..]);
      assert Keys(Put(t, name, c)) == [t[0].0] + Keys(Put(t[1..], name, c));
    }
  }

  /** A failed registration leaves the table unchanged; a successful one
      binds the name to the class and changes no other name. */
  lemma RegisterSpec(t: Table, name: string, c: StrategyClass, other: string)
    requires other != name
    ensures Register(t, name, c).error.Some? <==> !IsStrategy(c)
    ensures !IsStrategy(c) ==> Register(t, name, c).table == t
    ensures IsStrategy(c) ==> Lookup(Register(t, name, c).table, name) == Some(c)
    ensures Lookup(Register(t, name, c).table, other) == Lookup(t, other)
  {
    PutSpec(t, name, c, other);
  }
}
