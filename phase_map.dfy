/**
 * The phase encoding table of the discrete reaction automaton: integer codes
 * for phase names and back, with the reserved free-space phase at code 0.
 */
module PhaseMaps {
  import opened Results
  import PyInts

  /** The reserved name of empty space, always first in the table. */
  const FreeSpace: string := "_free_space"
  /** The reserved name of padding cells. */
  const Padding: string := "_padding"
  /** Characters kept per cell by the numpy dtype 'U100' of the name array. */
  const NameWidth: nat := 100

  // ---------------------------------------------------------------------
  // The two tables, as the constructor's loop writes them
  // ---------------------------------------------------------------------

  /** int_to_phase after the loop has visited the names `ps` in order. */
  function IntToPhaseOf(ps: seq<string>): map<int, string> {
    if ps == [] then map[] else IntToPhaseOf(ps[..|ps| - 1])[|ps| - 1 := ps[|ps| - 1]]
  }

  /** phase_to_int after the loop has visited the names `ps` in order. */
  function PhaseToIntOf(ps: seq<string>): map<string, int> {
    if ps == [] then map[] else PhaseToIntOf(ps[..|ps| - 1])[ps[|ps| - 1] := |ps| - 1]
  }

  /** `r` is the position of the last occurrence of `name` in `ps`. */
  predicate IsLastIndex(ps: seq<string>, name: string, r: int) {
    0 <= r < |ps| && ps[r] == name && forall j :: r < j < |ps| ==> ps[j] != name
  }

  predicate Distinct(ps: seq<string>) {
    forall i, j :: 0 <= i < j < |ps| ==> ps[i] != ps[j]
  }

  /** int_to_phase has exactly the keys 0..|ps|-1 and maps i to ps[i], repeated names or not. */
  lemma {:induction false} IntToPhaseContents(ps: seq<string>)
    ensures forall i :: i in IntToPhaseOf(ps) <==> 0 <= i < |ps|
    ensures forall i :: 0 <= i < |ps| ==> IntToPhaseOf(ps)[i] == ps[i]
  {
    if ps != [] {
      IntToPhaseContents(ps[..|ps| - 1]);
    }
  }

  /** phase_to_int has exactly the names of `ps` as keys and maps each to its last position. */
  lemma {:induction false} PhaseToIntContents(ps: seq<string>)
    ensures forall name :: name in PhaseToIntOf(ps) <==> name in ps
    ensures forall name :: name in ps ==> IsLastIndex(ps, name, PhaseToIntOf(ps)[name])
  {
    if ps != [] {
      var init := ps[..|ps| - 1];
      PhaseToIntContents(init);
      assert ps == init + [ps[|ps| - 1]];
    }
  }

  /** Encoding a name and decoding the code gives the name back, even with repeated names. */
  lemma DecodeEncode(ps: seq<string>)
    ensures forall name :: name in PhaseToIntOf(ps) ==>
      PhaseToIntOf(ps)[name] in IntToPhaseOf(ps) && IntToPhaseOf(ps)[PhaseToIntOf(ps)[name]] == name
  {
    IntToPhaseContents(ps);
    PhaseToIntContents(ps);
  }

  /** With distinct names, decoding a code and encoding the name gives the code back. */
  lemma EncodeDecode(ps: seq<string>)
    requires Distinct(ps)
    ensures forall i :: 0 <= i < |ps| ==> i in IntToPhaseOf(ps) && IntToPhaseOf(ps)[i] in PhaseToIntOf(ps) && PhaseToIntOf(ps)[IntToPhaseOf(ps)[i]] == i
  {
    IntToPhaseContents(ps);
    PhaseToIntContents(ps);
  }

  /** With distinct names, the two tables are inverse bijections between 0..|ps|-1 and the names. */
  lemma TablesAreInverse(ps: seq<string>)
    requires Distinct(ps)
    ensures PhaseToIntOf(ps).Values == IntToPhaseOf(ps).Keys
    ensures IntToPhaseOf(ps).Values == PhaseToIntOf(ps).Keys
  {
    IntToPhaseContents(ps);
    PhaseToIntContents(ps);
    EncodeDecode(ps);
    DecodeEncode(ps);
    forall i | i in IntToPhaseOf(ps).Keys ensures i in PhaseToIntOf(ps).Values {
      assert PhaseToIntOf(ps)[IntToPhaseOf(ps)[i]] == i;
    }
    forall name | name in PhaseToIntOf(ps).Keys ensures name in IntToPhaseOf(ps).Values {
      assert IntToPhaseOf(ps)[PhaseToIntOf(ps)[name]] == name;
    }
  }

  /** A repeated name keeps the last code written, so decoding then encoding is not the identity. */
  lemma RepeatedNameKeepsLastCode()
    ensures PhaseToIntOf([FreeSpace, "A", "A"])["A"] == 2
    ensures 1 in IntToPhaseOf([FreeSpace, "A", "A"]) && IntToPhaseOf([FreeSpace, "A", "A"])[1] == "A"
  {
    PhaseToIntContents([FreeSpace, "A", "A"]);
    IntToPhaseContents([FreeSpace, "A", "A"]);
  }

  /** The table the constructor builds from `given` names free space first. */
  function Encoding(given: seq<string>): seq<string> {
    [FreeSpace] + given
  }

  /** Distinct names without the sentinel give a distinct table, sentinel included. */
  lemma EncodingDistinct(given: seq<string>)
    requires Distinct(given) && FreeSpace !in given
    ensures Distinct(Encoding(given))
  {
  }

  /** free_space_id is 0 whenever the given names do not repeat the sentinel. */
  lemma FreeSpaceIdIsZero(given: seq<string>)
    requires FreeSpace !in given
    ensures FreeSpace in PhaseToIntOf(Encoding(given)) && PhaseToIntOf(Encoding(given))[FreeSpace] == 0
  {
    PhaseToIntContents(Encoding(given));
  }

  // ---------------------------------------------------------------------
  // Serialised form
  // ---------------------------------------------------------------------

  /**
   * A key of the serialised int_to_phase: an integer as `to_dict` writes it,
   * or a string as it comes back from a JSON document.
   */
  datatype Key = IntKey(n: int) | StrKey(s: string)

  /** Python's `int(k)` on a key; `None` is the ValueError it raises. */
  function KeyToInt(k: Key): Option<int> {
    match k
    case IntKey(n) => Some(n)
    case StrKey(s) => PyInts.ParseInt(s)
  }

  /** The dictionary `to_dict` returns and `from_dict` reads. */
  datatype PhaseMapDict = PhaseMapDict(
    phases: seq<string>,
    phaseToInt: map<string, int>,
    intToPhase: map<Key, string>,
    freeSpaceId: int)

  predicate KeysConvert(m: map<Key, string>) {
    forall k :: k in m ==> KeyToInt(k).Some?
  }

  /** No two keys of `m` convert to the same integer. */
  predicate KeysConvertInjectively(m: map<Key, string>) {
    forall k1, k2 :: k1 in m && k2 in m && KeyToInt(k1).Some? && KeyToInt(k1) == KeyToInt(k2) ==> k1 == k2
  }

  /** `{int(k): v for (k, v) in m.items()}`. */
  function ConvertKeys(m: map<Key, string>): (r: map<int, string>)
    requires KeysConvert(m) && KeysConvertInjectively(m)
    ensures forall k :: k in m ==> KeyToInt(k).value in r && r[KeyToInt(k).value] == m[k]
    ensures forall i :: i in r ==> exists k :: k in m && KeyToInt(k) == Some(i)
  {
    map k | k in m :: KeyToInt(k).value := m[k]
  }

  // ---------------------------------------------------------------------
  // The table object
  // ---------------------------------------------------------------------

  class PhaseMap {
    var phases: seq<string>
    var intToPhase: map<int, string>
    var phaseToInt: map<string, int>
    var paddingId: int
    var freeSpaceId: int

    /** Builds the table for `given`, with free space in front. */
    constructor (given: seq<string>)
      ensures phases == Encoding(given)
      ensures intToPhase == IntToPhaseOf(phases) && phaseToInt == PhaseToIntOf(phases)
      ensures paddingId == -1
      ensures FreeSpace in phaseToInt && freeSpaceId == phaseToInt[FreeSpace]
    {
      var ps := Encoding(given);
      var i2p: map<int, string> := map[];
      var p2i: map<string, int> := map[];
      var idx := 0;
      while idx < |ps|
        invariant 0 <= idx <= |ps|
        invariant i2p == IntToPhaseOf(ps[..idx]) && p2i == PhaseToIntOf(ps[..idx])
      {
        assert ps[..idx + 1][..idx] == ps[..idx];
        i2p := i2p[idx := ps[idx]];
        p2i := p2i[ps[idx] := idx];
        idx := idx + 1;
      }
      assert ps[..idx] == ps;
      PhaseToIntContents(ps);
      phases := ps;
      intToPhase := i2p;
      phaseToInt := p2i;
      paddingId := -1;
      freeSpaceId := p2i[FreeSpace];
    }

    /** The dictionary form of the table; it shares the table's lists and maps. */
    function ToDict(): (d: PhaseMapDict)
      reads this
      ensures d.phases == phases && d.phaseToInt == phaseToInt && d.freeSpaceId == freeSpaceId
      ensures forall k :: k in d.intToPhase <==> k.IntKey? && k.n in intToPhase
      ensures forall i :: i in intToPhase ==> d.intToPhase[IntKey(i)] == intToPhase[i]
    {
      PhaseMapDict(phases, phaseToInt, IntKeyed(intToPhase), freeSpaceId)
    }

    /** `cls([])`: the table of free space alone. */
    static method Empty() returns (pm: PhaseMap)
      ensures fresh(pm) && pm.paddingId == -1
      ensures pm.phases == [FreeSpace] && pm.freeSpaceId == 0
      ensures pm.intToPhase == map[0 := FreeSpace] && pm.phaseToInt == map[FreeSpace := 0]
    {
      pm := new PhaseMap([]);
      FreeSpaceIdIsZero([]);
      assert Encoding([]) == [FreeSpace];
    }

    /**
     * Rebuilds a table from its dictionary form: a fresh `PhaseMap([])` whose
     * fields are then overwritten, `int_to_phase` with its keys converted by
     * `int(k)`. `None` is the ValueError of a key that does not convert.
     */
    static method FromDict(d: PhaseMapDict) returns (r: Option<PhaseMap>)
      requires KeysConvertInjectively(d.intToPhase)
      ensures r.Some? <==> KeysConvert(d.intToPhase)
      ensures r.Some? ==> fresh(r.value) && r.value.paddingId == -1
      ensures r.Some? ==> r.value.phases == d.phases && r.value.phaseToInt == d.phaseToInt
      ensures r.Some? ==> r.value.intToPhase == ConvertKeys(d.intToPhase) && r.value.freeSpaceId == d.freeSpaceId
    {
      var pm := Empty();
      pm.phases := d.phases;
      if !KeysConvert(d.intToPhase) {
        return None;
      }
      var converted := ConvertKeys(d.intToPhase);
      pm.intToPhase := converted;
      pm.phaseToInt := d.phaseToInt;
      pm.freeSpaceId := d.freeSpaceId;
      r := Some(pm);
    }

    /**
     * The phase name of every cell of `state` (flattened): a cell whose code
     * is a key of int_to_phase holds that name, cut to the array's width.
     */
    method AsPhaseNameArray(state: array<int>) returns (names: array<string>)
      ensures fresh(names) && names.Length == state.Length
      ensures forall j :: 0 <= j < state.Length && state[j] in intToPhase ==>
        names[j] == Fit(intToPhase[state[j]])
    {
      names := new string[state.Length](_ => "");
      var todo := intToPhase.Keys;
      while todo != {}
        invariant todo <= intToPhase.Keys
        invariant forall j :: 0 <= j < state.Length && state[j] in intToPhase && state[j] !in todo ==>
          names[j] == Fit(intToPhase[state[j]])
        decreases todo
      {
        NonEmptyHasElement(todo);
        var code :| code in todo;
        var name := Fit(intToPhase[code]);
        for j := 0 to state.Length
          invariant forall i :: 0 <= i < state.Length && state[i] in intToPhase && state[i] !in todo ==>
            names[i] == Fit(intToPhase[state[i]])
          invariant forall i :: 0 <= i < j && state[i] == code ==> names[i] == name
        {
          if state[j] == code {
            names[j] := name;
          }
        }
        todo := todo - {code};
      }
    }
  }

  lemma NonEmptyHasElement(s: set<int>)
    requires s != {}
    ensures exists x :: x in s
  {
    if forall x :: x !in s {
      assert false;
    }
  }

  /** A name as a cell of dtype 'U100' stores it. */
  function Fit(name: string): (r: string)
    ensures |r| <= NameWidth && r <= name
    ensures |name| <= NameWidth ==> r == name
    ensures |name| > NameWidth ==> r == name[..NameWidth]
  {
    if |name| <= NameWidth then name else name[..NameWidth]
  }

  /** Integer keys are written as `to_dict` returns them. */
  function IntKeyed(m: map<int, string>): map<Key, string> {
    map i | i in m :: IntKey(i) := m[i]
  }

  /** Integer keys are written as a JSON document spells them: as their decimal strings. */
  function JsonKeyed(m: map<int, string>): map<Key, string> {
    PyInts.ShowIsInjective();
    map i | i in m :: StrKey(PyInts.ShowInt(i)) := m[i]
  }

  /** `from_dict` undoes `to_dict`: converting the integer keys gives the table back. */
  lemma IntKeyedRoundTrip(m: map<int, string>)
    ensures KeysConvert(IntKeyed(m)) && KeysConvertInjectively(IntKeyed(m))
    ensures ConvertKeys(IntKeyed(m)) == m
  {
    var r := ConvertKeys(IntKeyed(m));
    forall i | i in m ensures i in r && r[i] == m[i] {
      assert IntKey(i) in IntKeyed(m);
    }
  }

  /** The JSON key written for code `i` holds its name and converts back to `i`. */
  lemma JsonKeyAt(m: map<int, string>, i: int)
    requires i in m
    ensures StrKey(PyInts.ShowInt(i)) in JsonKeyed(m) && JsonKeyed(m)[StrKey(PyInts.ShowInt(i))] == m[i]
    ensures KeyToInt(StrKey(PyInts.ShowInt(i))) == Some(i)
  {
    PyInts.ShowIsInjective();
    PyInts.ParseShow(i);
  }

  /** Every JSON key was written for some code. */
  lemma JsonKeyFrom(m: map<int, string>, k: Key)
    requires k in JsonKeyed(m)
    ensures exists i :: i in m && k == StrKey(PyInts.ShowInt(i))
  {
  }

  /** `from_dict` also undoes a JSON round trip of `to_dict`'s output, whose keys come back as strings. */
  lemma JsonKeyedRoundTrip(m: map<int, string>)
    ensures KeysConvert(JsonKeyed(m)) && KeysConvertInjectively(JsonKeyed(m))
    ensures ConvertKeys(JsonKeyed(m)) == m
  {
    var j := JsonKeyed(m);
    forall k | k in j ensures KeyToInt(k).Some? && k == StrKey(PyInts.ShowInt(KeyToInt(k).value)) && KeyToInt(k).value in m {
      JsonKeyFrom(m, k);
      var i :| i in m && k == StrKey(PyInts.ShowInt(i));
      JsonKeyAt(m, i);
    }
    var r := ConvertKeys(j);
    forall i | i in m ensures i in r && r[i] == m[i] {
      JsonKeyAt(m, i);
    }
  }

  /** `PhaseMap.from_dict(pm.to_dict())`. */
  method Reload(pm: PhaseMap) returns (r: Option<PhaseMap>)
    ensures r.Some? && fresh(r.value)
    ensures r.value.phases == pm.phases && r.value.intToPhase == pm.intToPhase
    ensures r.value.phaseToInt == pm.phaseToInt && r.value.freeSpaceId == pm.freeSpaceId
  {
    var d := pm.ToDict();
    IntKeyedRoundTrip(pm.intToPhase);
    r := PhaseMap.FromDict(d);
  }

  /** `PhaseMap.from_dict` of `pm.to_dict()` written to JSON and read back. */
  method ReloadFromJson(pm: PhaseMap) returns (r: Option<PhaseMap>)
    ensures r.Some? && fresh(r.value)
    ensures r.value.phases == pm.phases && r.value.intToPhase == pm.intToPhase
    ensures r.value.phaseToInt == pm.phaseToInt && r.value.freeSpaceId == pm.freeSpaceId
  {
    var d := pm.ToDict();
    JsonKeyedRoundTrip(pm.intToPhase);
    r := PhaseMap.FromDict(d.(intToPhase := JsonKeyed(pm.intToPhase)));
  }
}
