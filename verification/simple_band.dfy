/**
 * The band of `band.py`: three musician classes whose labels are capitalised
 * ("Guitar", "Bass", "Drum") and lower-cased when a musician introduces itself,
 * and a `Band` that registers itself in the class-level list `Band.members`.
 */
module SimpleBand {
  import opened Wrappers
  import opened Seqs
  import opened Strings

  /** One concrete subclass of `Musician`, holding the name given to its constructor. */
  datatype Musician = Guitarist(name: string) | Bassist(name: string) | Drummer(name: string)
  {
    /** `get_instrument`: the label the subclass constructor stores. */
    function GetInstrument(): (r: string)
      ensures r == "Guitar" <==> Guitarist?
      ensures r == "Bass" <==> Bassist?
      ensures r == "Drum" <==> Drummer?
    {
      match this
      case Guitarist(_) => "Guitar"
      case Bassist(_) => "Bass"
      case Drummer(_) => "Drum"
    }

    /** `play_solo` as each subclass overrides it. */
    function PlaySolo(): (r: string)
      ensures r == "Jimi Hendrix - Little Wing" <==> Guitarist?
      ensures r == "Matt Freeman - Maxwell Murder" <==> Bassist?
      ensures r == "Buddy Rich - Caravan" <==> Drummer?
    {
      match this
      case Guitarist(_) => "Jimi Hendrix - Little Wing"
      case Bassist(_) => "Matt Freeman - Maxwell Murder"
      case Drummer(_) => "Buddy Rich - Caravan"
    }

    /** `self.__class__.__name__`. */
    function ClassName(): (r: string)
      ensures r == "Guitarist" <==> Guitarist?
      ensures r == "Bassist" <==> Bassist?
      ensures r == "Drummer" <==> Drummer?
    {
      match this
      case Guitarist(_) => "Guitarist"
      case Bassist(_) => "Bassist"
      case Drummer(_) => "Drummer"
    }

    /** `__str__`: an introduction with the instrument label lower-cased. */
    function Str(): (r: string)
      ensures r == "Hello, I am " + name + ", the " + SpokenInstrument(this) + " player."
    {
      "Hello, I am " + name + ", the " + Lower(GetInstrument()) + " player."
    }

    /** `__repr__`: the class name applied to the quoted name. */
    function Repr(): (r: string)
      ensures |r| == |ClassName()| + |name| + 4
      ensures r[..|ClassName()|] == ClassName()
      ensures r[|ClassName()|..|ClassName()| + 2] == "('" && r[|r| - 2..] == "')"
      ensures r[|ClassName()| + 2..|r| - 2] == name
    {
      ClassName() + "('" + name + "')"
    }
  }

  /** The lower-cased label each subclass shows in its introduction, spelt out. */
  function SpokenInstrument(m: Musician): string {
    match m
    case Guitarist(_) => "guitar"
    case Bassist(_) => "bass"
    case Drummer(_) => "drum"
  }

  /** `__str__` reads the label in lower case, so a musician says "the drum player", never "the Drum player". */
  lemma StrSpeaksLowerCase(m: Musician)
    ensures Lower(m.GetInstrument()) == SpokenInstrument(m)
    ensures m.Str() == "Hello, I am " + m.name + ", the " + SpokenInstrument(m) + " player."
  {
  }

  /** Instrument, solo and class name are fixed by the subclass, whatever the musician's name. */
  lemma FixedPerClass(m: Musician, other: string)
    ensures m.Guitarist? ==> m.GetInstrument() == "Guitar" && m.PlaySolo() == "Jimi Hendrix - Little Wing"
    ensures m.Bassist? ==> m.GetInstrument() == "Bass" && m.PlaySolo() == "Matt Freeman - Maxwell Murder"
    ensures m.Drummer? ==> m.GetInstrument() == "Drum" && m.PlaySolo() == "Buddy Rich - Caravan"
    ensures var renamed := m.(name := other);
      renamed.GetInstrument() == m.GetInstrument() && renamed.PlaySolo() == m.PlaySolo() &&
      renamed.ClassName() == m.ClassName()
  {
  }

  /** Each subclass has its own instrument and its own solo, and the two determine each other. */
  lemma SoloIdentifiesInstrument(m1: Musician, m2: Musician)
    ensures m1.PlaySolo() == m2.PlaySolo() <==> m1.GetInstrument() == m2.GetInstrument()
    ensures m1.GetInstrument() == m2.GetInstrument() <==> m1.ClassName() == m2.ClassName()
  {
  }

  /** Proof helper for StrInjective: what follows the name in an introduction. */
  function Ending(m: Musician): string {
    ", the " + SpokenInstrument(m) + " player."
  }

  /**
   * Proof step for StrInjective: the ninth character from the end of an introduction is
   * the last letter of the instrument, and no two instruments end in the same letter.
   */
  lemma EndingLetter(m: Musician)
    ensures m.Str() == ("Hello, I am " + m.name) + Ending(m)
    ensures |Ending(m)| >= 9 && m.Str()[|m.Str()| - 9] == LastChar(SpokenInstrument(m))
  {
  }

  /** Two musicians that introduce themselves alike are the same musician. */
  lemma StrInjective(m1: Musician, m2: Musician)
    requires m1.Str() == m2.Str()
    ensures m1 == m2
  {
    EndingLetter(m1);
    EndingLetter(m2);
    // No two instruments end in the same letter, so the endings agree and so do the names.
    assert LastChar(SpokenInstrument(m1)) == LastChar(SpokenInstrument(m2));
    assert SpokenInstrument(m1) == SpokenInstrument(m2);
    assert Ending(m1) == Ending(m2) && m1.GetInstrument() == m2.GetInstrument();
    // Same ending, so the names have the same length and sit at the same place.
    var s := m1.Str();
    assert |m1.name| == |m2.name|;
    assert m1.name == s[12..12 + |m1.name|] == m2.name;
  }

  /** Two musicians with the same repr are the same musician. */
  lemma ReprInjective(m1: Musician, m2: Musician)
    requires m1.Repr() == m2.Repr()
    ensures m1 == m2
  {
    var s := m1.Repr();
    assert s[0] == m1.ClassName()[0] == m2.ClassName()[0];
    var p := m1.ClassName() + "('";
    assert s == p + m1.name + "')" == p + m2.name + "')";
    assert m1.name == s[|p|..|s| - 2] == m2.name;
  }

  /** A musician's `__str__`, as a function value to map over a band. */
  function Introduction(m: Musician): string {
    m.Str()
  }

  /** The class-level list `Band.members`, to which every constructed band appends itself. */
  class Registry {
    var members: seq<Band>

    constructor ()
      ensures members == []
    {
      members := [];
    }
  }

  /** A band: an ordered sequence of musicians, fixed once constructed. */
  class Band {
    const musicians: seq<Musician>

    /** `Band(musicians=None)`: a missing or empty list gives an empty band; the band joins the registry. */
    constructor (registry: Registry, musicians: Option<seq<Musician>> := None)
      modifies registry
      ensures this.musicians == (if musicians.Some? then musicians.value else [])
      ensures registry.members == old(registry.members) + [this]
    {
      this.musicians := musicians.GetOr([]);
      new;
      registry.members := registry.members + [this];
    }

    /** `play_solos`: each musician's solo, in band order. */
    function PlaySolos(): (r: seq<string>)
      ensures |r| == |musicians|
      ensures forall i :: 0 <= i < |musicians| ==> r[i] == musicians[i].PlaySolo()
    {
      Map((m: Musician) => m.PlaySolo(), musicians)
    }

    /** `__str__`: the musicians' introductions separated by single spaces. */
    function Str(): (r: string)
      ensures r == Join(Map(Introduction, musicians), " ")
      ensures r == "" <==> musicians == []
      ensures |musicians| == 1 ==> r == musicians[0].Str()
      ensures musicians != [] ==> |musicians[0].Str()| <= |r| && r[..|musicians[0].Str()|] == musicians[0].Str()
      ensures musicians != [] ==> |musicians[|musicians| - 1].Str()| <= |r| && r[|r| - |musicians[|musicians| - 1].Str()|..] == musicians[|musicians| - 1].Str()
    {
      var parts := Map(Introduction, musicians);
      assert musicians != [] ==> |parts[0]| > 0;
      Join(parts, " ")
    }
  }

  /** The script at the bottom of `band.py`: a bassist and a drummer form a band. */
  method Demo(registry: Registry) returns (band: Band, count: nat, solos: seq<string>)
    modifies registry
    ensures registry.members == old(registry.members) + [band]
    ensures band.musicians == [Bassist("Jeremy"), Drummer("Mark")]
    ensures count == 2
    ensures solos == ["Matt Freeman - Maxwell Murder", "Buddy Rich - Caravan"]
  {
    var musicians := [Bassist("Jeremy"), Drummer("Mark")];
    band := new Band(registry, Some(musicians));
    count := |band.musicians|;
    solos := band.PlaySolos();
  }
}
