/**
 * The command-line tokenizer both generations of the CLI provider run over
 * `argv[1:]`: a three-state machine (start, after a bare switch, after an
 * assignment) that fills a switch-to-value map. The newer provider also
 * removes a leading `V` from switch names (`stripVariablePrefix`); the older
 * one does not.
 */
module Tokenizer {
  import Strings
  import opened Values

  datatype Context = Start | InSwitch | InValue

  /** The loop's variables: the map, the previous context and the current switch. */
  datatype State = State(switches: map<string, string>, context: Context, current: string)

  const Initial := State(map[], Start, "")

  predicate IsSwitch(arg: string)
  {
    |arg| > 0 && arg[0] == '-'
  }

  /**
   * A token the loop processes without an index panic: it is non-empty
   * (`arg[0]`), a switch has a second character (`arg[1]`), and, when the
   * `V` prefix is checked, the name left after the dashes is non-empty
   * (`currentSwitch[0]`).
   */
  predicate Tokenizable(arg: string, stripVariablePrefix: bool)
  {
    && |arg| > 0
    && (arg[0] == '-' ==> |arg| >= 2 && (stripVariablePrefix ==> |Undashed(arg)| > 0))
  }

  predicate WellFormed(args: seq<string>, stripVariablePrefix: bool)
  {
    forall i :: 0 <= i < |args| ==> Tokenizable(args[i], stripVariablePrefix)
  }

  /** A process argument vector the provider can load: the program name and well-formed tokens. */
  predicate WellFormedArgv(argv: seq<string>, stripVariablePrefix: bool)
  {
    |argv| >= 1 && WellFormed(argv[1..], stripVariablePrefix)
  }

  /** `--name` loses two dashes, `-name` one. */
  function Undashed(arg: string): string
    requires |arg| >= 2
  {
    if arg[1] == '-' then arg[2..] else arg[1..]
  }

  /** The switch name after the dashes and, if requested, a leading `V`. */
  function SwitchName(arg: string, stripVariablePrefix: bool): string
    requires IsSwitch(arg) && Tokenizable(arg, stripVariablePrefix)
  {
    var name := Undashed(arg);
    if stripVariablePrefix && name[0] == 'V' then name[1..] else name
  }

  /** An assignment switch has an `=` after at least one character. */
  predicate IsAssignment(name: string)
  {
    Strings.IndexByte(name, '=') > 0
  }

  /** The key a switch name is stored under: the text before the first `=` of an assignment. */
  function KeyOf(name: string): string
  {
    var i := Strings.IndexByte(name, '=');
    if i > 0 then name[..i] else name
  }

  function AssignedValue(name: string): string
    requires IsAssignment(name)
  {
    name[Strings.IndexByte(name, '=') + 1..]
  }

  function SwitchKey(arg: string, stripVariablePrefix: bool): string
    requires IsSwitch(arg) && Tokenizable(arg, stripVariablePrefix)
  {
    KeyOf(SwitchName(arg, stripVariablePrefix))
  }

  /** One iteration of the loop over the arguments. */
  function Step(st: State, arg: string, stripVariablePrefix: bool): State
    requires Tokenizable(arg, stripVariablePrefix)
  {
    if IsSwitch(arg) then
      var name := SwitchName(arg, stripVariablePrefix);
      if IsAssignment(name) then
        State(st.switches[KeyOf(name) := AssignedValue(name)], InValue, KeyOf(name))
      else
        State(st.switches[name := ""], InSwitch, name)
    else if st.context == InSwitch then
      var sofar := if st.current in st.switches then st.switches[st.current] else "";
      State(st.switches[st.current := if |sofar| == 0 then arg else sofar + " " + arg], InSwitch, st.current)
    else
      st
  }

  /** The loop state after processing `args` in order, starting from `st`. */
  function RunFrom(st: State, args: seq<string>, stripVariablePrefix: bool): State
    requires WellFormed(args, stripVariablePrefix)
    decreases |args|
  {
    if args == [] then st
    else Step(RunFrom(st, args[..|args| - 1], stripVariablePrefix), args[|args| - 1], stripVariablePrefix)
  }

  function Run(args: seq<string>, stripVariablePrefix: bool): State
    requires WellFormed(args, stripVariablePrefix)
  {
    RunFrom(Initial, args, stripVariablePrefix)
  }

  /** The switch map built from a whole argument vector; the program name is skipped. */
  function Parse(argv: seq<string>, stripVariablePrefix: bool): map<string, string>
    requires WellFormedArgv(argv, stripVariablePrefix)
  {
    Run(argv[1..], stripVariablePrefix).switches
  }

  /** What a lookup of `key` answers: the stored string, or nil. */
  function SwitchValue(switches: map<string, string>, key: string): Value
  {
    if key in switches then Str(switches[key]) else Null
  }

  /**
   * The loop itself: walks `argv[1..]` once, keeping the previous context
   * and the current switch, and fills the switch map in place.
   */
  method Scan(argv: seq<string>, stripVariablePrefix: bool) returns (switches: map<string, string>)
    requires WellFormedArgv(argv, stripVariablePrefix)
    ensures switches == Parse(argv, stripVariablePrefix)
  {
    switches := map[];
    var previousContext := Start;
    var currentSwitch := "";
    var i := 1;
    while i < |argv|
      invariant 1 <= i <= |argv|
      invariant WellFormed(argv[1..i], stripVariablePrefix)
      invariant State(switches, previousContext, currentSwitch) == Run(argv[1..i], stripVariablePrefix)
    {
      var arg := argv[i];
      assert Tokenizable(arg, stripVariablePrefix) by { assert argv[1..][i - 1] == arg; }
      RunSnoc(argv[1..i], arg, stripVariablePrefix);
      switches, previousContext, currentSwitch := ScanToken(switches, previousContext, currentSwitch, arg, stripVariablePrefix);
      assert argv[1..i] + [arg] == argv[1..i + 1];
      i := i + 1;
    }
    assert argv[1..i] == argv[1..];
  }

  /** The body of the loop, for one argument. */
  method ScanToken(switches: map<string, string>, previousContext: Context, currentSwitch: string,
                   arg: string, stripVariablePrefix: bool)
    returns (switches': map<string, string>, previousContext': Context, currentSwitch': string)
    requires Tokenizable(arg, stripVariablePrefix)
    ensures State(switches', previousContext', currentSwitch')
         == Step(State(switches, previousContext, currentSwitch), arg, stripVariablePrefix)
  {
    switches', previousContext', currentSwitch' := switches, previousContext, currentSwitch;
    if arg[0] == '-' {
      switches', previousContext', currentSwitch' := ScanSwitch(switches, arg, stripVariablePrefix);
    } else if previousContext == InSwitch {
      var sofar := if currentSwitch in switches then switches[currentSwitch] else "";
      if |sofar| == 0 {
        switches' := switches[currentSwitch := arg];
      } else {
        switches' := switches[currentSwitch := sofar + " " + arg];
      }
    }
  }

  /** A switch token: its name, then either an assignment or a bare switch. */
  method ScanSwitch(switches: map<string, string>, arg: string, stripVariablePrefix: bool)
    returns (switches': map<string, string>, previousContext': Context, currentSwitch': string)
    requires IsSwitch(arg) && Tokenizable(arg, stripVariablePrefix)
    ensures State(switches', previousContext', currentSwitch')
         == Step(State(switches, Start, ""), arg, stripVariablePrefix)
  {
    if arg[1] == '-' {
      currentSwitch' := arg[2..];
    } else {
      currentSwitch' := arg[1..];
    }
    if stripVariablePrefix && currentSwitch'[0] == 'V' {
      currentSwitch' := currentSwitch'[1..];
    }
    ghost var name := currentSwitch';
    assert name == SwitchName(arg, stripVariablePrefix);
    var i := Strings.IndexByte(currentSwitch', '=');
    if i > 0 {
      assert IsAssignment(name) && KeyOf(name) == name[..i] && AssignedValue(name) == name[i + 1..];
      var currentValue := currentSwitch'[i + 1..];
      currentSwitch' := currentSwitch'[..i];
      switches' := switches[currentSwitch' := currentValue];
      previousContext' := InValue;
    } else {
      assert !IsAssignment(name);
      switches' := switches[currentSwitch' := ""];
      previousContext' := InSwitch;
    }
  }

  // ---------------------------------------------------------------------
  // Reference descriptions of the map

  /** The keys of the switch tokens in `args`. */
  function SwitchKeys(args: seq<string>, stripVariablePrefix: bool): set<string>
    requires WellFormed(args, stripVariablePrefix)
    decreases |args|
  {
    if args == [] then {}
    else
      var last := args[|args| - 1];
      SwitchKeys(args[..|args| - 1], stripVariablePrefix)
        + (if IsSwitch(last) then {SwitchKey(last, stripVariablePrefix)} else {})
  }

  predicate NoSwitch(args: seq<string>)
  {
    forall i :: 0 <= i < |args| ==> !IsSwitch(args[i])
  }

  /** The non-switch tokens that follow a bare switch up to the next switch. */
  function Continuation(args: seq<string>): seq<string>
  {
    if args == [] || IsSwitch(args[0]) then [] else [args[0]] + Continuation(args[1..])
  }

  /** The value a switch token leaves for its key when `rest` follows it. */
  function ValueAfter(sw: string, rest: seq<string>, stripVariablePrefix: bool): string
    requires IsSwitch(sw) && Tokenizable(sw, stripVariablePrefix)
  {
    var name := SwitchName(sw, stripVariablePrefix);
    if IsAssignment(name) then AssignedValue(name) else Strings.Join(Continuation(rest), ' ')
  }

  // ---------------------------------------------------------------------
  // Properties

  /** An assignment splits at its first `=`: key, `=`, value give back the name. */
  lemma AssignmentSplit(name: string)
    requires IsAssignment(name)
    ensures KeyOf(name) + "=" + AssignedValue(name) == name
    ensures |KeyOf(name)| > 0 && '=' !in KeyOf(name)
  {
    var i := Strings.IndexByte(name, '=');
    assert name[..i] + [name[i]] + name[i + 1..] == name;
  }

  lemma {:induction false} RunFromConcat(st: State, a: seq<string>, b: seq<string>, strip: bool)
    requires WellFormed(a + b, strip)
    ensures WellFormed(a, strip) && WellFormed(b, strip)
    ensures RunFrom(st, a + b, strip) == RunFrom(RunFrom(st, a, strip), b, strip)
    decreases |b|
  {
    assert forall i :: 0 <= i < |a| ==> a[i] == (a + b)[i];
    assert forall i :: 0 <= i < |b| ==> b[i] == (a + b)[|a| + i];
    if b == [] {
      assert a + b == a;
    } else {
      assert (a + b)[..|a + b| - 1] == a + b[..|b| - 1];
      RunFromConcat(st, a, b[..|b| - 1], strip);
    }
  }

  /** Processing one more token is one more step of the loop. */
  lemma RunSnoc(args: seq<string>, t: string, strip: bool)
    requires WellFormed(args, strip) && Tokenizable(t, strip)
    ensures WellFormed(args + [t], strip)
    ensures Run(args + [t], strip) == Step(Run(args, strip), t, strip)
  {
    WellFormedConcat(args, [t], strip);
    assert (args + [t])[..|args|] == args;
  }

  /** Positional arguments before the first switch are dropped. */
  lemma {:induction false} LeadingPositionalIgnored(p: seq<string>, rest: seq<string>, strip: bool)
    requires WellFormed(p + rest, strip)
    requires NoSwitch(p)
    ensures WellFormed(rest, strip)
    ensures Run(p + rest, strip) == Run(rest, strip)
  {
    RunFromConcat(Initial, p, rest, strip);
    PositionalFromStart(p, strip);
  }

  lemma {:induction false} PositionalFromStart(p: seq<string>, strip: bool)
    requires WellFormed(p, strip)
    requires NoSwitch(p)
    ensures RunFrom(Initial, p, strip) == Initial
    decreases |p|
  {
    if p != [] {
      PositionalFromStart(p[..|p| - 1], strip);
    }
  }

  /** After any prefix, a bare switch context points at a stored key. */
  lemma {:induction false} RunCurrentStored(args: seq<string>, strip: bool)
    requires WellFormed(args, strip)
    ensures Run(args, strip).context == InSwitch ==> Run(args, strip).current in Run(args, strip).switches
    decreases |args|
  {
    if args != [] {
      RunCurrentStored(args[..|args| - 1], strip);
    }
  }

  /** The map holds exactly the keys of the switch tokens. */
  lemma {:induction false} RunKeys(args: seq<string>, strip: bool)
    requires WellFormed(args, strip)
    ensures Run(args, strip).switches.Keys == SwitchKeys(args, strip)
    decreases |args|
  {
    if args != [] {
      var init := args[..|args| - 1];
      RunKeys(init, strip);
      RunCurrentStored(init, strip);
    }
  }

  lemma {:induction false} ContinuationOfNoSwitch(args: seq<string>)
    requires NoSwitch(args)
    ensures Continuation(args) == args
  {
    if args != [] {
      ContinuationOfNoSwitch(args[1..]);
    }
  }

  lemma {:induction false} ContinuationSnoc(args: seq<string>, t: string)
    ensures Continuation(args + [t]) == if NoSwitch(args) && !IsSwitch(t) then args + [t] else Continuation(args)
  {
    if args == [] {
      assert Continuation([t]) == if IsSwitch(t) then [] else [t] + Continuation([]);
    } else {
      assert (args + [t])[0] == args[0];
      assert (args + [t])[1..] == args[1..] + [t];
      ContinuationSnoc(args[1..], t);
      if NoSwitch(args) && !IsSwitch(t) {
        ContinuationOfNoSwitch(args[1..]);
      }
    }
  }

  lemma WellFormedConcat(a: seq<string>, b: seq<string>, strip: bool)
    requires WellFormed(a, strip) && WellFormed(b, strip)
    ensures WellFormed(a + b, strip)
  {
    forall i | 0 <= i < |a + b|
      ensures Tokenizable((a + b)[i], strip)
    {
      if i < |a| {
        assert (a + b)[i] == a[i];
      } else {
        assert (a + b)[i] == b[i - |a|];
      }
    }
  }

  /**
   * The last switch token for a key decides its value: an assignment stores
   * its text after `=`, a bare switch the following non-switch tokens joined
   * by single spaces (the empty string when there are none). Earlier
   * switches for that key are overwritten.
   */
  lemma LastSwitchDecides(pre: seq<string>, sw: string, rest: seq<string>, strip: bool)
    requires WellFormed(pre, strip) && WellFormed(rest, strip)
    requires IsSwitch(sw) && Tokenizable(sw, strip)
    requires forall j :: 0 <= j < |rest| && IsSwitch(rest[j]) ==> SwitchKey(rest[j], strip) != SwitchKey(sw, strip)
    ensures WellFormed(pre + [sw] + rest, strip)
    ensures SwitchKey(sw, strip) in Run(pre + [sw] + rest, strip).switches
    ensures Run(pre + [sw] + rest, strip).switches[SwitchKey(sw, strip)] == ValueAfter(sw, rest, strip)
  {
    LastSwitchPrefix(pre, sw, rest, strip, |rest|);
    assert rest[..|rest|] == rest;
  }

  /** The loop state once `sw` and then `seen` have been processed, as far as `sw`'s key goes. */
  predicate Tracks(st: State, sw: string, seen: seq<string>, strip: bool)
    requires IsSwitch(sw) && Tokenizable(sw, strip)
  {
    var k := SwitchKey(sw, strip);
    && k in st.switches
    && st.switches[k] == ValueAfter(sw, seen, strip)
    && (NoSwitch(seen) ==>
          st.current == k && st.context == (if IsAssignment(SwitchName(sw, strip)) then InValue else InSwitch))
    && (!NoSwitch(seen) ==> st.current != k)
  }

  lemma TracksStep(st: State, sw: string, seen: seq<string>, t: string, strip: bool)
    requires IsSwitch(sw) && Tokenizable(sw, strip)
    requires WellFormed(seen, strip) && Tokenizable(t, strip)
    requires IsSwitch(t) ==> SwitchKey(t, strip) != SwitchKey(sw, strip)
    requires Tracks(st, sw, seen, strip)
    ensures Tracks(Step(st, t, strip), sw, seen + [t], strip)
  {
    ContinuationSnoc(seen, t);
    assert NoSwitch(seen + [t]) <==> NoSwitch(seen) && !IsSwitch(t) by {
      assert forall i :: 0 <= i < |seen| ==> (seen + [t])[i] == seen[i];
      assert (seen + [t])[|seen|] == t;
    }
    if IsSwitch(t) {
      TracksOtherSwitch(st, sw, seen, t, strip);
    } else if !NoSwitch(seen) || IsAssignment(SwitchName(sw, strip)) {
      assert ValueAfter(sw, seen + [t], strip) == ValueAfter(sw, seen, strip);
    } else {
      TracksContinuation(st, sw, seen, t, strip);
    }
  }

  lemma TracksOtherSwitch(st: State, sw: string, seen: seq<string>, t: string, strip: bool)
    requires IsSwitch(sw) && Tokenizable(sw, strip)
    requires IsSwitch(t) && Tokenizable(t, strip)
    requires SwitchKey(t, strip) != SwitchKey(sw, strip)
    requires Tracks(st, sw, seen, strip)
    requires Continuation(seen + [t]) == Continuation(seen)
    requires !NoSwitch(seen + [t])
    ensures Tracks(Step(st, t, strip), sw, seen + [t], strip)
  {
  }

  lemma TracksContinuation(st: State, sw: string, seen: seq<string>, t: string, strip: bool)
    requires IsSwitch(sw) && Tokenizable(sw, strip)
    requires WellFormed(seen, strip) && Tokenizable(t, strip) && !IsSwitch(t)
    requires !IsAssignment(SwitchName(sw, strip))
    requires Tracks(st, sw, seen, strip)
    requires NoSwitch(seen) && NoSwitch(seen + [t])
    requires Continuation(seen + [t]) == seen + [t]
    ensures Tracks(Step(st, t, strip), sw, seen + [t], strip)
  {
    ContinuationOfNoSwitch(seen);
    Strings.JoinSnoc(seen, t, ' ');
    if seen != [] {
      assert Tokenizable(seen[0], strip);
    }
  }

  lemma {:induction false} LastSwitchPrefix(pre: seq<string>, sw: string, rest: seq<string>, strip: bool, j: nat)
    requires WellFormed(pre, strip) && WellFormed(rest, strip)
    requires IsSwitch(sw) && Tokenizable(sw, strip)
    requires forall i :: 0 <= i < |rest| && IsSwitch(rest[i]) ==> SwitchKey(rest[i], strip) != SwitchKey(sw, strip)
    requires j <= |rest|
    ensures WellFormed(pre + [sw] + rest[..j], strip)
    ensures Tracks(Run(pre + [sw] + rest[..j], strip), sw, rest[..j], strip)
    decreases j
  {
    WellFormedConcat(pre, [sw], strip);
    assert WellFormed(rest[..j], strip) by {
      forall i | 0 <= i < j ensures Tokenizable(rest[..j][i], strip) {
        assert rest[..j][i] == rest[i];
      }
    }
    WellFormedConcat(pre + [sw], rest[..j], strip);
    if j == 0 {
      assert pre + [sw] + rest[..0] == pre + [sw];
      assert (pre + [sw])[..|pre|] == pre;
    } else {
      LastSwitchPrefix(pre, sw, rest, strip, j - 1);
      var prev := rest[..j - 1];
      var args := pre + [sw] + rest[..j];
      assert rest[..j] == prev + [rest[j - 1]];
      assert args[..|args| - 1] == pre + [sw] + prev;
      assert args[|args| - 1] == rest[j - 1];
      assert WellFormed(prev, strip) by {
        forall i | 0 <= i < |prev| ensures Tokenizable(prev[i], strip) {
          assert prev[i] == rest[i];
        }
      }
      TracksStep(Run(pre + [sw] + prev, strip), sw, prev, rest[j - 1], strip);
    }
  }
}
