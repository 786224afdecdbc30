/**
 * The band of `pythonic_garage_band/band.py`: an abstract `Musician` base with
 * two abstract methods, four subclasses of which one (Keyboardist) leaves a
 * method unimplemented and so cannot be instantiated, and a `Band` that records
 * every instance in the class-level list `Band.instances`.
 */
module GarageBand {
  import opened Wrappers
  import opened Seqs
  import opened Strings

  /** The classes of the musician hierarchy: the abstract base and its four subclasses. */
  datatype MusicianClass = MusicianBase | Guitarist | Bassist | Drummer | Keyboardist

  /** The methods the base class declares abstract. */
  datatype AbstractMethod = PlaySoloMethod | RequiredMethod

  /** The abstract methods a class leaves without an implementation. */
  function Unimplemented(c: MusicianClass): set<AbstractMethod> {
    match c
    case MusicianBase => {PlaySoloMethod, RequiredMethod}
    case Keyboardist => {RequiredMethod}
    case _ => {}
  }

  /** A class that implements every abstract method, and so can be instantiated. */
  type ConcreteClass = c: MusicianClass | Unimplemented(c) == {} witness Guitarist

  /** `self.__class__.__name__`. */
  function ClassName(c: MusicianClass): string {
    match c
    case MusicianBase => "Musician"
    case Guitarist => "Guitarist"
    case Bassist => "Bassist"
    case Drummer => "Drummer"
    case Keyboardist => "Keyboardist"
  }

  /** The label a subclass constructor stores in `self.instrument`; the base stores none. */
  function Instrument(c: MusicianClass): string
    requires c != MusicianBase
  {
    match c
    case Guitarist => "guitar"
    case Bassist => "bass"
    case Drummer => "drums"
    case Keyboardist => "keyboard"
  }

  /** The string a class's `play_solo` returns, for the classes that implement it. */
  function Solo(c: MusicianClass): string
    requires PlaySoloMethod !in Unimplemented(c)
  {
    match c
    case Guitarist => "face melting guitar solo"
    case Bassist => "bom bom buh bom"
    case Drummer => "rattle boom crash"
    case Keyboardist => "keyboard solo"
  }

  /** The placeholder a class's required method returns, for the classes that implement it. */
  function Placeholder(c: MusicianClass): string
    requires RequiredMethod !in Unimplemented(c)
  {
    match c
    case Guitarist => "incomplete guitar"
    case Bassist => "incomplete bass"
    case Drummer => "incomplete drum"
  }

  /** Every subclass has its own instrument label and its own solo. */
  lemma LabelsIdentifyClass(c1: MusicianClass, c2: MusicianClass)
    requires c1 != MusicianBase && c2 != MusicianBase
    ensures Instrument(c1) == Instrument(c2) <==> c1 == c2
    ensures Solo(c1) == Solo(c2) <==> c1 == c2
  {
  }

  /** An instance of a concrete class, holding the name given to its constructor. */
  datatype Musician = Musician(cls: ConcreteClass, name: string)
  {
    /** `get_instrument`: the label of the musician's class, never the keyboard. */
    function GetInstrument(): (r: string)
      ensures r == "guitar" <==> cls == Guitarist
      ensures r == "bass" <==> cls == Bassist
      ensures r == "drums" <==> cls == Drummer
      ensures r != "keyboard"
    {
      Instrument(cls)
    }

    /** `play_solo`: the solo of the musician's class. */
    function PlaySolo(): (r: string)
      ensures r == "face melting guitar solo" <==> cls == Guitarist
      ensures r == "bom bom buh bom" <==> cls == Bassist
      ensures r == "rattle boom crash" <==> cls == Drummer
      ensures r != "keyboard solo"
    {
      Solo(cls)
    }

    /** `some_method_that_must_be_implemented_in_base_class`: the placeholder of the musician's class. */
    function SomeMethodThatMustBeImplementedInBaseClass(): (r: string)
      ensures r == "incomplete guitar" <==> cls == Guitarist
      ensures r == "incomplete bass" <==> cls == Bassist
      ensures r == "incomplete drum" <==> cls == Drummer
    {
      Placeholder(cls)
    }

    /** `__str__`: the name after "My name is ", and the instrument label at the very end. */
    function Str(): (r: string)
      ensures |r| == |"My name is "| + |name| + |" and I play "| + |GetInstrument()|
      ensures r[..11] == "My name is " && r[11..11 + |name|] == name
      ensures r[11 + |name|..|r| - |GetInstrument()|] == " and I play "
      ensures r[|r| - |GetInstrument()|..] == GetInstrument()
    {
      "My name is " + name + " and I play " + GetInstrument()
    }

    /** `__repr__`: the class name, then " instance. Name = ", then the name. */
    function Repr(): (r: string)
      ensures |r| == |ClassName(cls)| + |" instance. Name = "| + |name|
      ensures r[..|ClassName(cls)|] == ClassName(cls)
      ensures r[|ClassName(cls)|..|r| - |name|] == " instance. Name = "
      ensures r[|r| - |name|..] == name
    {
      ClassName(cls) + " instance. Name = " + name
    }
  }

  /** Label, solo and placeholder are fixed by the class, whatever the musician's name. */
  lemma FixedPerClass(m: Musician, other: string)
    ensures m.cls == Guitarist ==>
      m.GetInstrument() == "guitar" && m.PlaySolo() == "face melting guitar solo" &&
      m.SomeMethodThatMustBeImplementedInBaseClass() == "incomplete guitar"
    ensures m.cls == Bassist ==>
      m.GetInstrument() == "bass" && m.PlaySolo() == "bom bom buh bom" &&
      m.SomeMethodThatMustBeImplementedInBaseClass() == "incomplete bass"
    ensures m.cls == Drummer ==>
      m.GetInstrument() == "drums" && m.PlaySolo() == "rattle boom crash" &&
      m.SomeMethodThatMustBeImplementedInBaseClass() == "incomplete drum"
    ensures var renamed := m.(name := other);
      renamed.GetInstrument() == m.GetInstrument() && renamed.PlaySolo() == m.PlaySolo() &&
      renamed.SomeMethodThatMustBeImplementedInBaseClass() == m.SomeMethodThatMustBeImplementedInBaseClass()
  {
  }

  /** The error Python raises on instantiating a class that leaves abstract methods open. */
  datatype InstantiationError = AbstractClass(cls: MusicianClass, missing: set<AbstractMethod>)

  /** `C(name)` for a class C of the hierarchy: succeeds exactly for the concrete classes. */
  function Instantiate(c: MusicianClass, name: string): (r: Result<Musician, InstantiationError>)
    ensures r.Ok? <==> c == Guitarist || c == Bassist || c == Drummer
    ensures r.Ok? ==> r.value.cls == c && r.value.name == name
    ensures r.Err? ==> r.error.cls == c && r.error.missing != {}
    ensures c == MusicianBase ==> r == Err(AbstractClass(MusicianBase, {PlaySoloMethod, RequiredMethod}))
    ensures c == Keyboardist ==> r == Err(AbstractClass(Keyboardist, {RequiredMethod}))
  {
    if Unimplemented(c) == {} then Ok(Musician(c, name))
    else Err(AbstractClass(c, Unimplemented(c)))
  }

  /** A Keyboardist can never be constructed, so no musician plays the keyboard. */
  lemma NoKeyboardist(m: Musician)
    ensures m.cls != Keyboardist && m.cls != MusicianBase
    ensures m.GetInstrument() != "keyboard" && m.PlaySolo() != "keyboard solo"
  {
  }

  /**
   * Proof step for StrInjective: an introduction ends in the instrument label, and the
   * last two letters of the label already tell the classes apart.
   */
  lemma StrEnding(m: Musician)
    ensures m.Str() == ("My name is " + m.name + " and I play ") + m.GetInstrument()
    ensures m.Str()[|m.Str()| - 1] == LastChar(m.GetInstrument())
    ensures m.Str()[|m.Str()| - 2] == m.GetInstrument()[|m.GetInstrument()| - 2]
  {
  }

  /** Two musicians that introduce themselves alike are the same musician. */
  lemma StrInjective(m1: Musician, m2: Musician)
    requires m1.Str() == m2.Str()
    ensures m1 == m2
  {
    StrEnding(m1);
    StrEnding(m2);
    var g1, g2 := m1.GetInstrument(), m2.GetInstrument();
    assert LastChar(g1) == LastChar(g2) && g1[|g1| - 2] == g2[|g2| - 2];
    // No two concrete labels share their last two letters.
    assert m1.cls == m2.cls;
    // Same label, so the names have the same length and sit at the same place.
    var s := m1.Str();
    assert |m1.name| == |m2.name|;
    assert m1.name == s[11..11 + |m1.name|] == m2.name;
  }

  /** Two musicians with the same repr are the same musician. */
  lemma ReprInjective(m1: Musician, m2: Musician)
    requires m1.Repr() == m2.Repr()
    ensures m1 == m2
  {
    var s := m1.Repr();
    assert s[0] == ClassName(m1.cls)[0] == ClassName(m2.cls)[0];
    var p := ClassName(m1.cls) + " instance. Name = ";
    assert s == p + m1.name == p + m2.name;
    assert m1.name == s[|p|..] == m2.name;
  }

  /** A musician's `__str__`, as a function value to map over a band. */
  function Introduction(m: Musician): string {
    m.Str()
  }

  /** The class-level list `Band.instances`: every band ever constructed, in construction order. */
  class Registry {
    var instances: seq<Band>

    constructor ()
      ensures instances == []
    {
      instances := [];
    }

    /** `Band.to_list()`: the registry itself. */
    method ToList() returns (bands: seq<Band>)
      ensures bands == instances
    {
      bands := instances;
    }
  }

  /** A named band: an ordered sequence of musicians, fixed once constructed. */
  class Band {
    const name: string
    const musicians: seq<Musician>
    /** The instance attribute `members`, another name for `musicians`. */
    const members: seq<Musician>

    /** `Band(name="Band", musicians=None)`: the band joins the end of the registry. */
    constructor (registry: Registry, name: string := "Band", musicians: Option<seq<Musician>> := None)
      modifies registry
      ensures this.name == name
      ensures this.musicians == (if musicians.Some? then musicians.value else [])
      ensures members == this.musicians
      ensures registry.instances == old(registry.instances) + [this]
    {
      this.musicians := musicians.GetOr([]);
      members := musicians.GetOr([]);
      this.name := name;
      new;
      registry.instances := registry.instances + [this];
    }

    /** `play_solos`: each musician's solo, in band order. */
    function PlaySolos(): (r: seq<string>)
      ensures |r| == |musicians|
      ensures forall i :: 0 <= i < |musicians| ==> r[i] == musicians[i].PlaySolo()
    {
      Map((m: Musician) => m.PlaySolo(), musicians)
    }

    /** `__str__`: the musicians' introductions separated by single spaces. */
    function Str(): (r: string)
      ensures r == Join(Map(Introduction, musicians), " ")
      ensures r == "" <==> musicians == []
      ensures |musicians| == 1 ==> r == musicians[0].Str()
      ensures musicians != [] ==> |musicians[0].Str()| <= |r| && r[..|musicians[0].Str()|] == musicians[0].Str()
      ensures musicians != [] ==> |musicians[|musicians| - 1].Str()| <= |r| && r[|r| - |musicians[|musicians| - 1].Str()|..] == musicians[|musicians| - 1].Str()
    {
      var parts := Map(Introduction, musicians);
      assert musicians != [] ==> |parts[0]| > 0;
      Join(parts, " ")
    }
  }

  /** A guitarist named Alice plays the guitar solo and answers the required method. */
  lemma AliceScenario()
    ensures Instantiate(Guitarist, "Alice") == Ok(Musician(Guitarist, "Alice"))
    ensures Musician(Guitarist, "Alice").PlaySolo() == "face melting guitar solo"
    ensures Musician(Guitarist, "Alice").SomeMethodThatMustBeImplementedInBaseClass() == "incomplete guitar"
    ensures Musician(Guitarist, "Alice").Str() == "My name is Alice and I play guitar"
  {
    AliceIntroduction();
  }

  /** Proof step for AliceScenario: Alice's introduction, spelt out. */
  lemma AliceIntroduction()
    ensures Musician(Guitarist, "Alice").Str() == "My name is Alice and I play guitar"
  {
    var alice := Musician(Guitarist, "Alice");
    assert alice.GetInstrument() == "guitar";
    assert alice.Str() == "My name is " + "Alice" + " and I play " + "guitar";
  }

  /**
   * Constructing one band per list, in turn: the registry then lists everything it held
   * before, followed by exactly these bands in construction order.
   */
  method ConstructAll(registry: Registry, lists: seq<seq<Musician>>) returns (bands: seq<Band>, listed: seq<Band>)
    modifies registry
    ensures |bands| == |lists|
    ensures forall j :: 0 <= j < |bands| ==> bands[j].musicians == lists[j] && bands[j].name == "Band"
    ensures forall j :: 0 <= j < |bands| ==> fresh(bands[j])
    ensures registry.instances == old(registry.instances) + bands
    ensures listed == registry.instances
  {
    bands := [];
    var i := 0;
    while i < |lists|
      invariant 0 <= i <= |lists|
      invariant |bands| == i
      invariant forall j :: 0 <= j < i ==> bands[j].musicians == lists[j] && bands[j].name == "Band"
      invariant forall j :: 0 <= j < i ==> fresh(bands[j])
      invariant registry.instances == old(registry.instances) + bands
    {
      var b := new Band(registry, musicians := Some(lists[i]));
      bands := bands + [b];
      i := i + 1;
    }
    listed := registry.ToList();
  }
}
