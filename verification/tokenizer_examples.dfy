/**
 * The tokenizer on the argument vectors of the repository's own test
 * scenarios, one loop iteration at a time.
 */
module TokenizerExamples {
  import Strings
  import opened Tokenizer

  /** Extends a known run by one known loop iteration. */
  lemma RunThen(args: seq<string>, t: string, st: State, st': State, strip: bool)
    requires WellFormed(args, strip) && Tokenizable(t, strip)
    requires Run(args, strip) == st && Step(st, t, strip) == st'
    ensures WellFormed(args + [t], strip) && Run(args + [t], strip) == st'
  {
    RunSnoc(args, t, strip);
  }

  /** A bare switch stores its name with an empty value and waits for values. */
  lemma SwitchStep(st: State, arg: string, dashes: string, name: string, strip: bool)
    requires dashes == "-" || dashes == "--"
    requires |name| > 0 && name[0] != '-' && !(strip && name[0] == 'V') && '=' !in name
    requires arg == dashes + name
    ensures Tokenizable(arg, strip)
    ensures Step(st, arg, strip) == State(st.switches[name := ""], InSwitch, name)
  {
    assert arg[|dashes|..] == name;
    assert arg[1] == (if dashes == "--" then '-' else name[0]);
  }

  /** `-V<name>` is stored under `<name>` when the prefix is stripped and under `V<name>` otherwise. */
  lemma VariableSwitch(st: State, arg: string, name: string, strip: bool)
    requires |name| > 0 && name[0] != 'V' && '=' !in name
    requires arg == "-V" + name
    ensures Tokenizable(arg, strip)
    ensures Step(st, arg, strip)
         == var key := if strip then name else "V" + name;
            State(st.switches[key := ""], InSwitch, key)
  {
    assert arg[1..] == "V" + name;
    assert ("V" + name)[1..] == name;
    assert '=' !in "V" + name;
  }

  /** `-key=value` stores the value and ends the switch. */
  lemma AssignmentStep(st: State, arg: string, key: string, value: string, strip: bool)
    requires |key| > 0 && key[0] != '-' && !(strip && key[0] == 'V') && '=' !in key
    requires arg == "-" + key + "=" + value
    ensures Tokenizable(arg, strip)
    ensures Step(st, arg, strip) == State(st.switches[key := value], InValue, key)
  {
    var name := arg[1..];
    assert name == key + ['='] + value;
    Strings.IndexByteOfConcat(key, '=', value);
    assert name[..|key|] == key && name[|key| + 1..] == value;
  }

  /** The first value after a bare switch becomes its value. */
  lemma ValueStep(st: State, t: string, strip: bool)
    requires |t| > 0 && t[0] != '-'
    requires st.context == InSwitch && st.current in st.switches && st.switches[st.current] == ""
    ensures Tokenizable(t, strip)
    ensures Step(st, t, strip) == State(st.switches[st.current := t], InSwitch, st.current)
  {
  }

  /** A switch name the loop stores as written: no dash, no `V` to strip, no `=`. */
  predicate PlainName(name: string, strip: bool)
  {
    |name| > 0 && name[0] != '-' && !(strip && name[0] == 'V') && '=' !in name
  }

  /** A token that is not a switch. */
  predicate PlainValue(value: string)
  {
    |value| > 0 && value[0] != '-'
  }

  /** A bare switch for `key` followed by one value stores that value. */
  lemma SwitchThenValue(args: seq<string>, st: State, sw: string, key: string, value: string, strip: bool)
    requires WellFormed(args, strip) && Run(args, strip) == st
    requires Tokenizable(sw, strip) && Step(st, sw, strip) == State(st.switches[key := ""], InSwitch, key)
    requires PlainValue(value)
    ensures WellFormed(args + [sw, value], strip)
    ensures Run(args + [sw, value], strip) == State(st.switches[key := value], InSwitch, key)
  {
    var s1 := State(st.switches[key := ""], InSwitch, key);
    RunThen(args, sw, st, s1, strip);
    ValueStep(s1, value, strip);
    assert s1.switches[key := value] == st.switches[key := value];
    RunThen(args + [sw], value, s1, State(st.switches[key := value], InSwitch, key), strip);
    assert args + [sw] + [value] == args + [sw, value];
  }

  // ---------------------------------------------------------------------
  // app -property1 cmlValue1 --property2 longValue -property3=assignedValue

  /** Short, long and assignment switches side by side, as in the ad-hoc extraction test. */
  lemma AdHocArguments(argv: seq<string>, n1: string, v1: string, n2: string, v2: string, n3: string, v3: string, strip: bool)
    requires PlainName(n1, strip) && PlainName(n2, strip) && PlainName(n3, strip)
    requires PlainValue(v1) && PlainValue(v2)
    requires argv == ["app", "-" + n1, v1, "--" + n2, v2, "-" + n3 + "=" + v3]
    ensures WellFormedArgv(argv, strip)
    ensures Parse(argv, strip) == map[n1 := v1][n2 := v2][n3 := v3]
  {
    var a := argv[1..];
    var s2 := State(map[n1 := v1], InSwitch, n1);
    var s4 := State(map[n1 := v1][n2 := v2], InSwitch, n2);
    SwitchStep(Initial, a[0], "-", n1, strip);
    SwitchThenValue([], Initial, a[0], n1, v1, strip);
    SwitchStep(s2, a[2], "--", n2, strip);
    assert [] + [a[0], a[1]] == a[..2];
    SwitchThenValue(a[..2], s2, a[2], n2, v2, strip);
    AssignmentStep(s4, a[4], n3, v3, strip);
    assert a[..2] + [a[2], a[3]] == a[..4];
    RunThen(a[..4], a[4], s4, State(map[n1 := v1][n2 := v2][n3 := v3], InValue, n3), strip);
    assert a[..4] + [a[4]] == a;
  }

  // ---------------------------------------------------------------------
  // app -Vv1 cmlValue1 -Vsomething cmlValue2

  /** The newer provider strips the `V` of variable switches; the older one keeps it. */
  lemma VariableArguments(argv: seq<string>, n1: string, v1: string, n2: string, v2: string, strip: bool)
    requires PlainName(n1, true) && PlainName(n2, true) && PlainValue(v1) && PlainValue(v2)
    requires argv == ["app", "-V" + n1, v1, "-V" + n2, v2]
    ensures WellFormedArgv(argv, strip)
    ensures Parse(argv, strip)
         == if strip then map[n1 := v1][n2 := v2] else map["V" + n1 := v1]["V" + n2 := v2]
  {
    var a := argv[1..];
    var k1, k2 := if strip then n1 else "V" + n1, if strip then n2 else "V" + n2;
    var s2 := State(map[k1 := v1], InSwitch, k1);
    VariableSwitch(Initial, a[0], n1, strip);
    SwitchThenValue([], Initial, a[0], k1, v1, strip);
    VariableSwitch(s2, a[2], n2, strip);
    assert [] + [a[0], a[1]] == a[..2];
    SwitchThenValue(a[..2], s2, a[2], k2, v2, strip);
    assert a[..2] + [a[2], a[3]] == a;
  }

  // ---------------------------------------------------------------------
  // app -Jsection.property2 overrideSectionJsonValue2 -j tests/config.json

  /** A bare switch followed by one value, twice, as in the ad-hoc JSON and YAML override tests. */
  lemma TwoSwitches(argv: seq<string>, n1: string, v1: string, n2: string, v2: string, strip: bool)
    requires PlainName(n1, strip) && PlainName(n2, strip) && PlainValue(v1) && PlainValue(v2)
    requires argv == ["app", "-" + n1, v1, "-" + n2, v2]
    ensures WellFormedArgv(argv, strip)
    ensures Parse(argv, strip) == map[n1 := v1][n2 := v2]
  {
    var a := argv[1..];
    var s2 := State(map[n1 := v1], InSwitch, n1);
    SwitchStep(Initial, a[0], "-", n1, strip);
    SwitchThenValue([], Initial, a[0], n1, v1, strip);
    SwitchStep(s2, a[2], "-", n2, strip);
    assert [] + [a[0], a[1]] == a[..2];
    SwitchThenValue(a[..2], s2, a[2], n2, v2, strip);
    assert a[..2] + [a[2], a[3]] == a;
  }
}
