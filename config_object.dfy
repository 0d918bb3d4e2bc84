/**
 * Engine configuration objects: the object type numbering, the typed
 * setter used when parsing `key value` lines, and the template-merge rules
 * applied when an object inherits from a template.
 */
module ConfigObject {
  import opened Common

  /** `object_type`, numbered as the configuration parser's tables are indexed. */
  datatype ObjectType =
    | Command | Connector | Contactgroup | Contact | Hostdependency
    | Hostescalation | Hostextinfo | Hostgroup | Host | Servicedependency
    | Serviceescalation | Serviceextinfo | Servicegroup | Service | Timeperiod

  const TypeCount := 15

  function TypeId(t: ObjectType): (id: nat)
    ensures id < TypeCount
  {
    match t
    case Command => 0
    case Connector => 1
    case Contactgroup => 2
    case Contact => 3
    case Hostdependency => 4
    case Hostescalation => 5
    case Hostextinfo => 6
    case Hostgroup => 7
    case Host => 8
    case Servicedependency => 9
    case Serviceescalation => 10
    case Serviceextinfo => 11
    case Servicegroup => 12
    case Service => 13
    case Timeperiod => 14
  }

  function TypeOfId(id: nat): (t: Option<ObjectType>)
    ensures t.Some? <==> id < TypeCount
  {
    if id == 0 then Some(Command)
    else if id == 1 then Some(Connector)
    else if id == 2 then Some(Contactgroup)
    else if id == 3 then Some(Contact)
    else if id == 4 then Some(Hostdependency)
    else if id == 5 then Some(Hostescalation)
    else if id == 6 then Some(Hostextinfo)
    else if id == 7 then Some(Hostgroup)
    else if id == 8 then Some(Host)
    else if id == 9 then Some(Servicedependency)
    else if id == 10 then Some(Serviceescalation)
    else if id == 11 then Some(Serviceextinfo)
    else if id == 12 then Some(Servicegroup)
    else if id == 13 then Some(Service)
    else if id == 14 then Some(Timeperiod)
    else None
  }

  /** The type name written after `define`, spelled as the enumerator. */
  function TypeName(t: ObjectType): string
  {
    match t
    case Command => "command"
    case Connector => "connector"
    case Contactgroup => "contactgroup"
    case Contact => "contact"
    case Hostdependency => "hostdependency"
    case Hostescalation => "hostescalation"
    case Hostextinfo => "hostextinfo"
    case Hostgroup => "hostgroup"
    case Host => "host"
    case Servicedependency => "servicedependency"
    case Serviceescalation => "serviceescalation"
    case Serviceextinfo => "serviceextinfo"
    case Servicegroup => "servicegroup"
    case Service => "service"
    case Timeperiod => "timeperiod"
  }

  /** The numbering is a bijection between the fifteen types and 0..14. */
  lemma TypeIdRoundTrip(t: ObjectType, id: nat)
    ensures TypeOfId(TypeId(t)) == Some(t)
    ensures id < TypeCount ==> TypeId(TypeOfId(id).value) == id
  {
  }

  // ---------------------------------------------------------------------
  // setter::generic
  // ---------------------------------------------------------------------

  /**
   * A typed extraction `iss >> val` from the text: the value read and the
   * input left over, or None when nothing of the type could be read.
   */
  type Extractor<U> = string -> Option<(U, string)>

  /** The extraction succeeded and consumed everything (`eof` holds). */
  function ParseWhole<U>(value: string, extract: Extractor<U>): (r: Option<U>)
    ensures r.Some? <==> extract(value).Some? && extract(value).value.1 == ""
    ensures r.Some? ==> r.value == extract(value).value.0
  {
    match extract(value)
    case None => None
    case Some((v, rest)) => if rest == "" then Some(v) else None
  }

  /**
   * `setter::generic`: the setter runs on the parsed value only when the
   * whole text parsed; otherwise the object is left as it was and false is returned.
   */
  function Generic<T, U>(obj: T, value: string, extract: Extractor<U>, setter: (T, U) -> (T, bool)): (r: (T, bool))
    ensures ParseWhole(value, extract).None? ==> r == (obj, false)
    ensures ParseWhole(value, extract).Some? ==> r == setter(obj, ParseWhole(value, extract).value)
  {
    match ParseWhole(value, extract)
    case None => (obj, false)
    case Some(v) => setter(obj, v)
  }

  /** The `std::string const&` specialisation: the text goes to the setter unchanged. */
  function GenericString<T>(obj: T, value: string, setter: (T, string) -> (T, bool)): (r: (T, bool))
    ensures r == setter(obj, value)
  {
    setter(obj, value)
  }

  /** The characters `operator>>` skips before a number. */
  predicate IsSpace(c: char)
  {
    c == ' ' || c == '\t' || c == '\n' || c == '\r' || c == 12 as char || c == 11 as char
  }

  /** The number of leading whitespace characters. */
  function SkipSpace(s: string): (k: nat)
    ensures k <= |s|
    ensures forall i :: 0 <= i < k ==> IsSpace(s[i])
    ensures k < |s| ==> !IsSpace(s[k])
  {
    if s != [] && IsSpace(s[0]) then 1 + SkipSpace(s[1..]) else 0
  }

  /** The length of the leading run of digits. */
  function DigitRun(s: string): (d: nat)
    ensures d <= |s|
    ensures AllDigits(s[..d])
    ensures d < |s| ==> !IsDigit(s[d])
  {
    if s != [] && IsDigit(s[0]) then
      assert s[..1 + DigitRun(s[1..])] == [s[0]] + s[1..][..DigitRun(s[1..])];
      1 + DigitRun(s[1..])
    else 0
  }

  /** Extraction of an unsigned decimal: leading whitespace, then the longest run of digits. */
  function ExtractNat(s: string): (r: Option<(nat, string)>)
    ensures r.Some? <==> SkipSpace(s) < |s| && IsDigit(s[SkipSpace(s)])
  {
    var k := SkipSpace(s);
    var d := DigitRun(s[k..]);
    if d == 0 then None else Some((DigitsValue(s[k..][..d]), s[k..][d..]))
  }

  /** A number setter accepts exactly optional leading blanks followed by digits up to the end. */
  lemma NatWholeIff(value: string)
    ensures ParseWhole(value, ExtractNat).Some? <==>
      SkipSpace(value) < |value| && AllDigits(value[SkipSpace(value)..])
    ensures ParseWhole(value, ExtractNat).Some? ==>
      ParseWhole(value, ExtractNat).value == DigitsValue(value[SkipSpace(value)..])
  {
    var k := SkipSpace(value);
    var tail := value[k..];
    var d := DigitRun(tail);
    if d == 0 {
      assert ExtractNat(value).None?;
      if k < |value| {
        assert !IsDigit(tail[0]);
      }
    } else {
      assert ExtractNat(value) == Some((DigitsValue(tail[..d]), tail[d..]));
      if d == |tail| {
        assert tail[..d] == tail;
        assert tail[d..] == "";
      } else {
        assert !IsDigit(tail[d]);
        assert tail[d..] != "";
      }
    }
  }

  /** Text after the number, even a single blank, makes the setter refuse the value. */
  lemma TrailingTextRejected(value: string)
    ensures ParseWhole(value + " ", ExtractNat).None?
  {
    var s := value + " ";
    NatWholeIff(s);
    if SkipSpace(s) < |s| {
      assert s[SkipSpace(s)..][|s| - 1 - SkipSpace(s)] == ' ';
    }
  }

  /** A printed number is read back by the setter. */
  lemma PrintedNatAccepted(n: nat)
    ensures ParseWhole(NatToString(n), ExtractNat) == Some(n)
  {
    var s := NatToString(n);
    assert !IsSpace(s[0]);
    assert SkipSpace(s) == 0;
    assert s[0..] == s;
    NatWholeIff(s);
    DigitsValueOfNatToString(n);
  }

  // ---------------------------------------------------------------------
  // Template merging
  // ---------------------------------------------------------------------

  /** MRG_DEFAULT (and MRG_INHERIT): an empty property takes the template's value. */
  function MergeDefault<T>(prop: seq<T>, tmpl: seq<T>): (r: seq<T>)
    ensures prop != [] ==> r == prop
    ensures prop == [] ==> r == tmpl
  {
    if prop == [] then tmpl else prop
  }

  /** MRG_IMPORTANT: an important template value wins even over a set property. */
  function MergeImportant<T>(prop: seq<T>, tmpl: seq<T>, tmplImportant: bool): (r: seq<T>)
    ensures tmplImportant ==> r == tmpl
    ensures !tmplImportant ==> r == MergeDefault(prop, tmpl)
  {
    if prop == [] || tmplImportant then tmpl else prop
  }

  /** MRG_MAP: template entries are added under keys the object does not have. */
  function MergeMap<K, V>(prop: map<K, V>, tmpl: map<K, V>): (r: map<K, V>)
    ensures r.Keys == prop.Keys + tmpl.Keys
    ensures forall k :: k in prop ==> r[k] == prop[k]
    ensures forall k :: k in tmpl && k !in prop ==> r[k] == tmpl[k]
  {
    tmpl + prop
  }

  /** An optional setting and whether it was given. */
  datatype Opt<T> = Opt(value: T, isSet: bool)

  /**
   * MRG_OPTION: a given option stays; otherwise the template's, if given,
   * else the default (assigning a plain value marks the option as given).
   */
  function MergeOption<T>(prop: Opt<T>, tmpl: Opt<T>, default: T): (r: Opt<T>)
    ensures prop.isSet ==> r == prop
    ensures !prop.isSet && tmpl.isSet ==> r == tmpl
    ensures !prop.isSet && !tmpl.isSet ==> r == Opt(default, true)
  {
    if prop.isSet then prop else if tmpl.isSet then tmpl else Opt(default, true)
  }

  /** Merging twice with the same template changes nothing more. */
  lemma MergeIdempotent<T, K, V>(prop: seq<T>, tmpl: seq<T>, important: bool,
                                 m: map<K, V>, tm: map<K, V>, o: Opt<T>, to: Opt<T>, d: T)
    ensures MergeDefault(MergeDefault(prop, tmpl), tmpl) == MergeDefault(prop, tmpl)
    ensures MergeImportant(MergeImportant(prop, tmpl, important), tmpl, important) == MergeImportant(prop, tmpl, important)
    ensures MergeMap(MergeMap(m, tm), tm) == MergeMap(m, tm)
    ensures MergeOption(MergeOption(o, to, d), to, d) == MergeOption(o, to, d)
  {
  }

  /** After an option merge the option is always given. */
  lemma MergedOptionIsSet<T>(o: Opt<T>, to: Opt<T>, d: T)
    ensures MergeOption(o, to, d).isSet
  {
  }

  /** MRG_ADDRESS on values: each empty slot takes the template's slot. */
  function AddressMerged(prop: seq<string>, tmpl: seq<string>): (r: seq<string>)
    requires |tmpl| >= |prop|
    ensures |r| == |prop|
    ensures forall i :: 0 <= i < |r| ==> r[i] == MergeDefault(prop[i], tmpl[i])
  {
    seq(|prop|, i requires 0 <= i < |prop| => if prop[i] == "" then tmpl[i] else prop[i])
  }

  /** After an address merge, a slot is empty only when both were. */
  lemma AddressMergeFills(prop: seq<string>, tmpl: seq<string>, i: nat)
    requires |tmpl| >= |prop| && i < |prop|
    ensures AddressMerged(prop, tmpl)[i] == "" <==> prop[i] == "" && tmpl[i] == ""
    ensures AddressMerged(AddressMerged(prop, tmpl), tmpl) == AddressMerged(prop, tmpl)
  {
  }

  /** MRG_ADDRESS: the slot-by-slot loop over the object's address array. */
  method MergeAddress(prop: array<string>, tmpl: array<string>)
    requires tmpl.Length >= prop.Length && prop != tmpl
    modifies prop
    ensures prop[..] == AddressMerged(old(prop[..]), tmpl[..])
  {
    var i := 0;
    while i < prop.Length
      invariant 0 <= i <= prop.Length
      invariant forall k :: 0 <= k < i ==> prop[k] == MergeDefault(old(prop[k]), tmpl[k])
      invariant forall k :: i <= k < prop.Length ==> prop[k] == old(prop[k])
      decreases prop.Length - i
    {
      if prop[i] == "" {
        prop[i] := tmpl[i];
      }
      i := i + 1;
    }
  }
}
