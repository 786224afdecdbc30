# Pythonic garage band, modelled in Dafny

The repository describes a band of musicians twice. `pythonic_garage_band/band.py`
has an abstract `Musician` base with two abstract methods (`play_solo` and
`some_method_that_must_be_implemented_in_base_class`), four subclasses (Guitarist,
Bassist, Drummer, Keyboardist) and a `Band` with a name, a `members` alias of its
musicians and a class-level registry `Band.instances` read by `Band.to_list()`.
`band.py` has three subclasses with capitalised instrument labels that are
lower-cased when a musician introduces itself, and a `Band` that appends itself to
the class-level list `Band.members`.

Modules:

- `GarageBand` (`garage_band.dfy`) models `pythonic_garage_band/band.py`. The
  classes of the hierarchy are the values of `MusicianClass`. `Unimplemented` gives
  the abstract methods a class leaves open. `Instantiate` is Python's instantiation
  check: it fails for the abstract base and for Keyboardist, which never implements
  the required method. A `Musician` value carries a `ConcreteClass`, so a Keyboardist
  musician cannot exist.
- `SimpleBand` (`simple_band.dfy`) models `band.py`. Its three subclasses are the
  three constructors of `Musician`.
- In both, the class-level list becomes an explicit `Registry` object. `Band` is a
  class whose fields are fixed at construction. Its constructor takes the registry
  and appends the new band to it, which is the only change the model makes to the
  registry. `Band.to_list()` is `Registry.ToList()`.
- `Seqs.Map` is the list comprehension and `Strings.Join` is `" ".join`; both are
  shared. `Strings.Lower` is `str.lower()` on ASCII text, which covers every label
  it is applied to.

Every musician operation is a pure function, so repeated calls give the same value.

## Model

| member | source | states |
|---|---|---|
| `GarageBand.Musician.GetInstrument` | pythonic_garage_band/band.py:21-28 | the label is "guitar", "bass" or "drums" exactly when the musician is a Guitarist, Bassist or Drummer, and never "keyboard" |
| `GarageBand.Musician.PlaySolo` | pythonic_garage_band/band.py:77-150 | the solo is "face melting guitar solo", "bom bom buh bom" or "rattle boom crash" exactly for a Guitarist, Bassist or Drummer, and never "keyboard solo" |
| `GarageBand.Musician.SomeMethodThatMustBeImplementedInBaseClass` | pythonic_garage_band/band.py:86-159 | the placeholder is "incomplete guitar", "incomplete bass" or "incomplete drum" exactly for a Guitarist, Bassist or Drummer |
| `GarageBand.Musician.Str` | pythonic_garage_band/band.py:44-51 | the introduction is "My name is ", then the name, then " and I play ", then the instrument label, with nothing else |
| `GarageBand.Musician.Repr` | pythonic_garage_band/band.py:53-60 | the repr is the class name, then " instance. Name = ", then the name, with nothing else |
| `GarageBand.Instantiate` | pythonic_garage_band/band.py:30-42 | constructing a class succeeds exactly for Guitarist, Bassist and Drummer, and gives a musician of that class with the given name; the base and Keyboardist fail, naming the abstract methods they leave open (for Keyboardist only the required method) |
| `GarageBand.NoKeyboardist` | pythonic_garage_band/band.py:161-183 | no musician value is a Keyboardist or the base class, so none plays the keyboard or its solo |
| `GarageBand.FixedPerClass` | pythonic_garage_band/band.py:67-159 | `get_instrument`, `play_solo` and the required method give the class's constants ("guitar"/"face melting guitar solo"/"incomplete guitar", and so on), and renaming the musician changes none of them |
| `GarageBand.LabelsIdentifyClass` | pythonic_garage_band/band.py:75-183 | two subclasses share an instrument label, or a solo, only if they are the same subclass |
| `GarageBand.StrEnding` | pythonic_garage_band/band.py:44-51 | `__str__` is "My name is " + name + " and I play " followed by the instrument label, so it ends in the label's last letters |
| `GarageBand.StrInjective` | pythonic_garage_band/band.py:44-51 | two musicians with the same `__str__` are the same class with the same name |
| `GarageBand.ReprInjective` | pythonic_garage_band/band.py:53-60 | `__repr__` (class name + " instance. Name = " + name) identifies the musician |
| `GarageBand.AliceScenario` | pythonic_garage_band/band.py:62-93 | a Guitarist named Alice can be constructed, plays "face melting guitar solo", answers "incomplete guitar" and introduces itself as "My name is Alice and I play guitar" |
| `GarageBand.Registry.constructor` | pythonic_garage_band/band.py:196 | the registry starts empty |
| `GarageBand.Registry.ToList` | pythonic_garage_band/band.py:222-230 | `to_list` returns the registry's bands |
| `GarageBand.Band.constructor` | pythonic_garage_band/band.py:199-210 | the name defaults to "Band"; a missing or empty musicians argument gives no musicians, and a given list is kept; `members` equals `musicians`; the registry gains exactly this band at its end and its earlier entries are unchanged |
| `GarageBand.Band.PlaySolos` | pythonic_garage_band/band.py:212-220 | one solo per musician: same length, and entry i is musician i's solo |
| `GarageBand.Band.Str` | pythonic_garage_band/band.py:232-239 | the rendering is the musicians' introductions joined in band order with single spaces (`Strings.Join`); it is "" exactly for a band without musicians, is the one musician's introduction for a band of one, and starts with the first and ends with the last musician's introduction |
| `GarageBand.ConstructAll` | pythonic_garage_band/band.py:199-230 | constructing one band per list, in turn, gives as many new bands as lists, each fresh, named "Band" and holding its list; the registry, and so `to_list`, is then the earlier bands followed by exactly these bands in construction order |
| `SimpleBand.Musician.GetInstrument` | band.py:5-39 | the label is "Guitar", "Bass" or "Drum" exactly when the musician is a Guitarist, Bassist or Drummer |
| `SimpleBand.Musician.PlaySolo` | band.py:23-42 | the solo is "Jimi Hendrix - Little Wing", "Matt Freeman - Maxwell Murder" or "Buddy Rich - Caravan" exactly for a Guitarist, Bassist or Drummer |
| `SimpleBand.Musician.ClassName` | band.py:15 | the class name is "Guitarist", "Bassist" or "Drummer" exactly for the matching subclass |
| `SimpleBand.Musician.Str` | band.py:11-12 | the introduction is "Hello, I am " + name + ", the " + the lower-case instrument word ("guitar", "bass" or "drum") + " player." |
| `SimpleBand.Musician.Repr` | band.py:14-15 | the repr is the class name, then "('", then the name, then "')", with nothing else |
| `SimpleBand.FixedPerClass` | band.py:17-42 | `get_instrument` and `play_solo` give the subclass's constants ("Guitar"/"Jimi Hendrix - Little Wing", "Bass"/"Matt Freeman - Maxwell Murder", "Drum"/"Buddy Rich - Caravan"), and renaming the musician changes neither nor the class name |
| `SimpleBand.SoloIdentifiesInstrument` | band.py:17-42 | two musicians play the same solo exactly when they play the same instrument, exactly when they are of the same class |
| `SimpleBand.StrSpeaksLowerCase` | band.py:11-12 | lower-casing the label gives "guitar", "bass" or "drum", so `__str__` is "Hello, I am " + name + ", the " + that word + " player." |
| `SimpleBand.StrInjective` | band.py:11-12 | two musicians with the same `__str__` are the same class with the same name |
| `SimpleBand.ReprInjective` | band.py:14-15 | `__repr__` (class name + "('" + name + "')") identifies the musician |
| `SimpleBand.Registry.constructor` | band.py:46 | the class-level `members` list starts empty |
| `SimpleBand.Band.constructor` | band.py:48-50 | a missing or empty musicians argument gives no musicians, and a given list is kept; the registry gains exactly this band at its end and its earlier entries are unchanged |
| `SimpleBand.Band.PlaySolos` | band.py:52-54 | one solo per musician: same length, and entry i is musician i's solo |
| `SimpleBand.Band.Str` | band.py:56-57 | the rendering is the musicians' introductions joined in band order with single spaces (`Strings.Join`); it is "" exactly for a band without musicians, is the one musician's introduction for a band of one, and starts with the first and ends with the last musician's introduction |
| `SimpleBand.Demo` | band.py:64-67 | a band of Bassist "Jeremy" and Drummer "Mark" has 2 musicians, its solos are ["Matt Freeman - Maxwell Murder", "Buddy Rich - Caravan"], and it is appended to the registry |
| `Seqs.Map` | pythonic_garage_band/band.py:219 | the comprehension keeps length and order: entry i is f applied to element i |
| `Strings.Join` | pythonic_garage_band/band.py:239 | `sep.join` of no parts is "", of one part is that part, and otherwise starts with the first part and ends with the last |
| `Strings.JoinSnoc` | pythonic_garage_band/band.py:239 | appending one more part to a non-empty list adds exactly one separator and then that part; with the empty and one-part cases this fixes every part and every separator of the join, in order |
| `Strings.LowerChar` | band.py:12 | an upper-case ASCII letter becomes its lower-case letter, any other character is kept, and the result is never upper case |
| `Strings.Lower` | band.py:12 | lower-casing keeps the length and lower-cases each character in place |

## Left out

- The `print` calls at band.py:66-67 write to standard output; `SimpleBand.Demo` returns the two printed values instead.
- `Band.__repr__` in both files depends on Python's rendering of a list and its quoting rules.
- Python's ABC machinery and `__class__.__name__` reflection are replaced by the closed set `MusicianClass` and the constant `ClassName`.
- The base `Musician.play_solo` of band.py:8-9 returns `self.solo`, which no class sets, and every subclass overrides it.
- The base class of band.py declares no abstract method, so Python can instantiate it; such an instance has no name and no instrument, and only the three subclasses are modelled.
- Aliasing between the caller's list and the band's `musicians` is not modelled: `musicians` is an immutable sequence, so a later change to the caller's list is not seen. For the same reason `members` in pythonic_garage_band/band.py:208 equals `musicians` rather than being the same list object, and `to_list` returns the registry's contents rather than the list object itself.
- Musicians are immutable values in the model. In Python `name` and `instrument` are mutable instance attributes (pythonic_garage_band/band.py:19 and 75, band.py:20-21), shared by reference with every band that holds the musician, and `get_instrument` returns whatever `self.instrument` holds at the time. The model does not capture a later assignment to either attribute, nor its effect on the bands that hold the musician.
- The class attribute `members = []` at pythonic_garage_band/band.py:197 is shadowed by the instance attribute set in the constructor and is never read.
- Strings.Lower: lower-cases ASCII letters only, not the full Unicode mapping of `str.lower()`; every label it is applied to is ASCII.
- Arbitrary non-musician objects in the musicians list, accepted by Python's duck typing, cannot be expressed: the list holds `Musician` values.
