/**
 * The command interpretation pipeline of the browser console: the
 * `watchCommands` loop, which takes one queued command at a time, records it
 * in history, reads the settings and then either hands a prefixed command to
 * `handleClientCommand` or runs it as a database query; and
 * `handleClientCommand`, which dispatches a client directive (`:clear`,
 * `:play`, anything else) to its handler.
 *
 * Each saga effect is a value of `Effect`. The pure functions below give the
 * sequence of effects one command produces; `ApplyAll` is the reference
 * meaning of such a sequence on the console state; the class `Interpreter`
 * performs the steps in place and is proved to agree with both.
 */
module CommandInterpreter {
  import opened Wrappers

  const ClearKeyword: string := "clear"
  const PlayKeyword: string := "play"
  const PlayType: string := "play"
  const PlayRemoteType: string := "play-remote"

  /** The settings snapshot the loop reads for every command. */
  datatype Settings = Settings(cmdchar: string)

  /** One saga effect, in the order the generator yields them. */
  datatype Effect =
    | TakeCommand                                     // take(USER_COMMAND_QUEUED)
    | AddHistory(cmd: string)                         // put(editor.actions.addHistory)
    | SelectSettings                                  // select(settings)
    | CallClientCommand(cmdchar: string, cmd: string) // call(handleClientCommand, …)
    | Transaction(query: string)                      // call(bolt.transaction, …)
    | RemoteGet(url: string)                          // call(remote.get, …)
    | AddFrame(cmd: string, frameType: Option<string>) // put(frames.actions.add(…))
    | ClearFrames                                     // put(frames.actions.clear())

  /** A client directive, after its keyword has been matched. */
  datatype Directive = Clear | Play(arg: string) | Unrecognized

  /** What the loop does with a command text. */
  datatype Decision = Query | Client(directive: Directive)

  /** A frame of the output stream; `id` stands for the generated uuid. */
  datatype Frame = Frame(id: nat, cmd: string, frameType: Option<string>)

  /** The console state the effects act on. */
  datatype State = State(history: seq<string>, frames: seq<Frame>, nextId: nat)

  // ---------------------------------------------------------------------
  // Classification
  // ---------------------------------------------------------------------

  predicate StartsWith(s: string, prefix: string) {
    |prefix| <= |s| && s[..|prefix|] == prefix
  }

  predicate IsWhitespace(c: char) {
    c == ' ' || c == '\t' || c == '\n' || c == '\r'
  }

  /** Length of the leading run of non-whitespace characters of `s`. */
  function KeywordLength(s: string): (n: nat)
    ensures n <= |s|
  {
    if s == [] || IsWhitespace(s[0]) then 0 else 1 + KeywordLength(s[1..])
  }

  /** `s` without its leading whitespace. */
  function TrimStart(s: string): string {
    if s != [] && IsWhitespace(s[0]) then TrimStart(s[1..]) else s
  }

  /** `s` without its trailing whitespace. */
  function TrimEnd(s: string): string {
    if s != [] && IsWhitespace(s[|s| - 1]) then TrimEnd(s[..|s| - 1]) else s
  }

  function Trim(s: string): string {
    TrimEnd(TrimStart(s))
  }

  /** The text after the directive prefix. */
  function AfterPrefix(cmdchar: string, cmd: string): string {
    if |cmdchar| <= |cmd| then cmd[|cmdchar|..] else []
  }

  /** The directive keyword: the first whitespace-delimited token after the prefix. */
  function Keyword(cmdchar: string, cmd: string): string {
    var rest := AfterPrefix(cmdchar, cmd);
    rest[..KeywordLength(rest)]
  }

  /** The directive argument: the rest of the text after the keyword, trimmed. */
  function Argument(cmdchar: string, cmd: string): string {
    var rest := AfterPrefix(cmdchar, cmd);
    Trim(rest[KeywordLength(rest)..])
  }

  /** Keyword dispatch of `handleClientCommand`: exact, case-sensitive match. */
  function ParseDirective(cmdchar: string, cmd: string): (r: Directive)
    ensures r == Clear <==> Keyword(cmdchar, cmd) == ClearKeyword
    ensures r.Play? <==> Keyword(cmdchar, cmd) == PlayKeyword
    ensures r.Play? ==> r.arg == Argument(cmdchar, cmd)
  {
    var keyword := Keyword(cmdchar, cmd);
    if keyword == ClearKeyword then Clear
    else if keyword == PlayKeyword then Play(Argument(cmdchar, cmd))
    else Unrecognized
  }

  /** Whether the text is a client directive or a query. */
  function Classify(cmdchar: string, cmd: string): Decision {
    if StartsWith(cmd, cmdchar) then Client(ParseDirective(cmdchar, cmd)) else Query
  }

  /** An absolute URL, recognised by its network scheme. */
  predicate IsUrl(s: string) {
    StartsWith(s, "http://") || StartsWith(s, "https://")
  }

  // ---------------------------------------------------------------------
  // Effects
  // ---------------------------------------------------------------------

  /** The effects of the handler of directive `d` for command text `cmd`. */
  function HandlerEffects(d: Directive, cmd: string): (r: seq<Effect>)
    ensures r == [ClearFrames] <==> d == Clear
    ensures d != Clear ==> |r| > 0 && r[|r| - 1].AddFrame? && r[|r| - 1].cmd == cmd
    ensures forall k :: 0 <= k < |r| ==> !r[k].Transaction? && !r[k].AddHistory? && !r[k].CallClientCommand?
  {
    match d
    case Clear => [ClearFrames]
    case Play(arg) =>
      if IsUrl(arg) then [RemoteGet(arg), AddFrame(cmd, Some(PlayRemoteType))]
      else [AddFrame(cmd, Some(PlayType))]
    case Unrecognized => [AddFrame(cmd, None)]
  }

  /** The effects of `handleClientCommand(cmdchar, cmd)`. */
  function ClientEffects(cmdchar: string, cmd: string): seq<Effect> {
    HandlerEffects(ParseDirective(cmdchar, cmd), cmd)
  }

  /** The effects after the settings are read: delegation or query execution. */
  function DispatchEffects(cmdchar: string, cmd: string): seq<Effect> {
    match Classify(cmdchar, cmd)
    case Query => [Transaction(cmd), AddFrame(cmd, None)]
    case Client(d) => [CallClientCommand(cmdchar, cmd)] + HandlerEffects(d, cmd)
  }

  /** The effects every iteration starts with: wait for a command, record it, read the settings. */
  function Prelude(cmd: string): seq<Effect> {
    [TakeCommand, AddHistory(cmd), SelectSettings]
  }

  /** The effects of one iteration of `watchCommands` for the queued command `cmd`. */
  function IterationEffects(settings: Settings, cmd: string): seq<Effect> {
    Prelude(cmd) + DispatchEffects(settings.cmdchar, cmd)
  }

  /** One submission: the settings in force when it is handled, and its text. */
  datatype Submission = Submission(settings: Settings, cmd: string)

  /** The effects of the loop over a whole sequence of submissions, in order. */
  function RunEffects(subs: seq<Submission>): seq<Effect> {
    Concat(subs, Block)
  }

  /** The effects of the iteration that handles submission `x`. */
  function Block(x: Submission): seq<Effect> {
    IterationEffects(x.settings, x.cmd)
  }

  /** The blocks `f(x)` of the elements of `xs`, one after another. */
  function Concat<T>(xs: seq<T>, f: T -> seq<Effect>): seq<Effect> {
    if xs == [] then [] else Concat(xs[..|xs| - 1], f) + f(xs[|xs| - 1])
  }

  function Texts(subs: seq<Submission>): seq<string> {
    if subs == [] then [] else Texts(subs[..|subs| - 1]) + [subs[|subs| - 1].cmd]
  }

  // ---------------------------------------------------------------------
  // Reference meaning of effects on the console state
  // ---------------------------------------------------------------------

  /** What one effect does to the state: only history and frame effects change it. */
  function Apply(s: State, e: Effect): State {
    match e
    case AddHistory(cmd) => s.(history := s.history + [cmd])
    case AddFrame(cmd, t) => s.(frames := s.frames + [Frame(s.nextId, cmd, t)], nextId := s.nextId + 1)
    case ClearFrames => s.(frames := [])
    case _ => s
  }

  function ApplyAll(s: State, es: seq<Effect>): State
    decreases es
  {
    if es == [] then s else ApplyAll(Apply(s, es[0]), es[1..])
  }

  /** Frame ids are strictly increasing and below the next id to hand out. */
  ghost predicate FreshIds(s: State) {
    (forall i, j :: 0 <= i < j < |s.frames| ==> s.frames[i].id < s.frames[j].id)
    && (forall i :: 0 <= i < |s.frames| ==> s.frames[i].id < s.nextId)
  }

  /** No database transaction and no remote fetch among the effects. */
  predicate NoExternalCalls(es: seq<Effect>) {
    forall k :: 0 <= k < |es| ==> !es[k].Transaction? && !es[k].RemoteGet?
  }

  // ---------------------------------------------------------------------
  // The interpreter, updating its state in place
  // ---------------------------------------------------------------------

  class Interpreter {
    var history: seq<string>
    var frames: seq<Frame>
    var nextId: nat
    /** The effects issued so far, in order. */
    var effects: seq<Effect>

    function Snapshot(): State
      reads this
    {
      State(history, frames, nextId)
    }

    ghost predicate Valid()
      reads this
    {
      FreshIds(Snapshot())
    }

    constructor ()
      ensures Valid()
      ensures Snapshot() == State([], [], 0) && effects == []
    {
      history, frames, nextId, effects := [], [], 0, [];
    }

    /** `frames.actions.add`: append a frame with a fresh id. */
    method AddFrameWithFreshId(cmd: string, t: Option<string>)
      requires Valid()
      modifies this
      ensures Valid()
      ensures Snapshot() == Apply(old(Snapshot()), AddFrame(cmd, t))
      ensures effects == old(effects) + [AddFrame(cmd, t)]
    {
      frames := frames + [Frame(nextId, cmd, t)];
      nextId := nextId + 1;
      effects := effects + [AddFrame(cmd, t)];
    }

    /** `handleClientCommand(cmdchar, cmd)`. */
    method HandleClientCommand(cmdchar: string, cmd: string)
      requires Valid()
      modifies this
      ensures Valid()
      ensures effects == old(effects) + ClientEffects(cmdchar, cmd)
      ensures Snapshot() == ApplyAll(old(Snapshot()), ClientEffects(cmdchar, cmd))
    {
      ghost var s0 := Snapshot();
      ghost var es := ClientEffects(cmdchar, cmd);
      var directive := ParseDirective(cmdchar, cmd);
      assert es == HandlerEffects(directive, cmd);
      match directive {
        case Clear =>
          frames := [];
          effects := effects + [ClearFrames];
          ApplyAllOne(s0, es, ClearFrames);
        case Play(arg) =>
          if IsUrl(arg) {
            effects := effects + [RemoteGet(arg)];
            AddFrameWithFreshId(cmd, Some(PlayRemoteType));
            ApplyAllTwo(s0, es, RemoteGet(arg), AddFrame(cmd, Some(PlayRemoteType)));
          } else {
            AddFrameWithFreshId(cmd, Some(PlayType));
            ApplyAllOne(s0, es, AddFrame(cmd, Some(PlayType)));
          }
        case Unrecognized =>
          AddFrameWithFreshId(cmd, None);
          ApplyAllOne(s0, es, AddFrame(cmd, None));
      }
    }

    /** The prefixed branch of an iteration: `call(handleClientCommand, cmdchar, cmd)`. */
    method Delegate(cmdchar: string, cmd: string)
      requires Valid() && Classify(cmdchar, cmd).Client?
      modifies this
      ensures Valid()
      ensures effects == old(effects) + DispatchEffects(cmdchar, cmd)
      ensures Snapshot() == ApplyAll(old(Snapshot()), DispatchEffects(cmdchar, cmd))
    {
      effects := effects + [CallClientCommand(cmdchar, cmd)];
      ghost var called := effects;
      HandleClientCommand(cmdchar, cmd);
      DispatchPrefixed(old(Snapshot()), cmdchar, cmd);
      assert effects == old(effects) + ([CallClientCommand(cmdchar, cmd)] + ClientEffects(cmdchar, cmd)) by {
        assert effects == called + ClientEffects(cmdchar, cmd);
      }
    }

    /** The query branch of an iteration: `call(bolt.transaction, cmd)`, then a frame for it. */
    method RunQuery(cmdchar: string, cmd: string)
      requires Valid() && Classify(cmdchar, cmd) == Query
      modifies this
      ensures Valid()
      ensures effects == old(effects) + DispatchEffects(cmdchar, cmd)
      ensures Snapshot() == ApplyAll(old(Snapshot()), DispatchEffects(cmdchar, cmd))
    {
      effects := effects + [Transaction(cmd)];
      AddFrameWithFreshId(cmd, None);
      DispatchQuery(old(Snapshot()), cmdchar, cmd);
    }

    /** One iteration of `watchCommands`: the queued command `cmd` is taken with `settings` in force. */
    method Submit(settings: Settings, cmd: string)
      requires Valid()
      modifies this
      ensures Valid()
      ensures effects == old(effects) + IterationEffects(settings, cmd)
      ensures Snapshot() == ApplyAll(old(Snapshot()), IterationEffects(settings, cmd))
    {
      ghost var s0, e0 := Snapshot(), effects;
      effects := effects + [TakeCommand];
      history := history + [cmd];
      effects := effects + [AddHistory(cmd)];
      effects := effects + [SelectSettings];
      var cmdchar := settings.cmdchar;
      ghost var s1, e1 := Snapshot(), effects;
      match Classify(cmdchar, cmd) {
        case Client(_) => Delegate(cmdchar, cmd);
        case Query => RunQuery(cmdchar, cmd);
      }
      IterationComposes(s0, e0, settings, cmd, s1, e1, Snapshot(), effects);
    }

    /** The `watchCommands` loop over a sequence of submissions, one fully handled before the next. */
    method Run(subs: seq<Submission>)
      requires Valid()
      modifies this
      ensures Valid()
      ensures effects == old(effects) + RunEffects(subs)
      ensures Snapshot() == ApplyAll(old(Snapshot()), RunEffects(subs))
      ensures history == old(history) + Texts(subs)
    {
      var i := 0;
      while i < |subs|
        invariant 0 <= i <= |subs|
        invariant Valid()
        invariant effects == old(effects) + RunEffects(subs[..i])
        invariant Snapshot() == ApplyAll(old(Snapshot()), RunEffects(subs[..i]))
        invariant history == old(history) + Texts(subs[..i])
      {
        ghost var before, handled := Snapshot(), effects;
        Submit(subs[i].settings, subs[i].cmd);
        RunStep(old(Snapshot()), old(effects), subs, i, before, handled, Snapshot(), effects);
        i := i + 1;
      }
      assert subs[..i] == subs;
    }
  }

  // ---------------------------------------------------------------------
  // Lemmas about the reference semantics
  // ---------------------------------------------------------------------

  lemma {:induction false} ApplyAllAppend(s: State, a: seq<Effect>, b: seq<Effect>)
    ensures ApplyAll(s, a + b) == ApplyAll(ApplyAll(s, a), b)
    decreases a
  {
    if a != [] {
      assert (a + b)[0] == a[0];
      assert (a + b)[1..] == a[1..] + b;
      ApplyAllAppend(Apply(s, a[0]), a[1..], b);
    } else {
      assert a + b == b;
    }
  }

  lemma ApplyAllCons(s: State, e: Effect, es: seq<Effect>)
    ensures ApplyAll(s, [e] + es) == ApplyAll(Apply(s, e), es)
  {
    assert ([e] + es)[1..] == es;
  }

  lemma ApplyAllOne(s: State, es: seq<Effect>, e: Effect)
    requires es == [e]
    ensures ApplyAll(s, es) == Apply(s, e)
  {
    assert es[1..] == [];
  }

  lemma ApplyAllTwo(s: State, es: seq<Effect>, e1: Effect, e2: Effect)
    requires es == [e1, e2]
    ensures ApplyAll(s, es) == Apply(Apply(s, e1), e2)
  {
    assert es[1..] == [e2];
    ApplyAllOne(Apply(s, e1), es[1..], e2);
  }

  /** The prelude of an iteration records the command and changes nothing else. */
  lemma ApplyPrelude(s: State, cmd: string)
    ensures ApplyAll(s, Prelude(cmd)) == s.(history := s.history + [cmd])
  {
    var p := Prelude(cmd);
    assert p[1..] == [AddHistory(cmd), SelectSettings];
    ApplyAllTwo(Apply(s, TakeCommand), p[1..], AddHistory(cmd), SelectSettings);
  }

  /** A prefixed text is handed to `handleClientCommand`, which alone moves the state. */
  lemma DispatchPrefixed(s: State, cmdchar: string, cmd: string)
    requires StartsWith(cmd, cmdchar)
    ensures DispatchEffects(cmdchar, cmd) == [CallClientCommand(cmdchar, cmd)] + ClientEffects(cmdchar, cmd)
    ensures ApplyAll(s, DispatchEffects(cmdchar, cmd)) == ApplyAll(s, ClientEffects(cmdchar, cmd))
  {
    ApplyAllCons(s, CallClientCommand(cmdchar, cmd), ClientEffects(cmdchar, cmd));
  }

  /** A text without the prefix runs as a transaction, then gets an untyped frame. */
  lemma DispatchQuery(s: State, cmdchar: string, cmd: string)
    requires !StartsWith(cmd, cmdchar)
    ensures DispatchEffects(cmdchar, cmd) == [Transaction(cmd), AddFrame(cmd, None)]
    ensures ApplyAll(s, DispatchEffects(cmdchar, cmd)) == Apply(Apply(s, Transaction(cmd)), AddFrame(cmd, None))
  {
    ApplyAllTwo(s, DispatchEffects(cmdchar, cmd), Transaction(cmd), AddFrame(cmd, None));
  }

  /** An iteration is its prelude followed by its dispatch stage. */
  lemma IterationComposes(s0: State, e0: seq<Effect>, settings: Settings, cmd: string,
                          s1: State, e1: seq<Effect>, after: State, issued: seq<Effect>)
    requires e1 == e0 + [TakeCommand] + [AddHistory(cmd)] + [SelectSettings]
    requires s1 == s0.(history := s0.history + [cmd])
    requires issued == e1 + DispatchEffects(settings.cmdchar, cmd)
    requires after == ApplyAll(s1, DispatchEffects(settings.cmdchar, cmd))
    ensures issued == e0 + IterationEffects(settings, cmd)
    ensures after == ApplyAll(s0, IterationEffects(settings, cmd))
  {
    ApplyPrelude(s0, cmd);
    ApplyAllAppend(s0, Prelude(cmd), DispatchEffects(settings.cmdchar, cmd));
    assert e1 == e0 + Prelude(cmd);
  }

  /** Every effect keeps frame ids fresh. */
  lemma {:induction false} ApplyAllKeepsFreshIds(s: State, es: seq<Effect>)
    requires FreshIds(s)
    ensures FreshIds(ApplyAll(s, es))
    decreases es
  {
    if es != [] {
      ApplyAllKeepsFreshIds(Apply(s, es[0]), es[1..]);
    }
  }

  /** `handleClientCommand` never touches history and makes no database call. */
  lemma ClientKeepsHistory(s: State, cmdchar: string, cmd: string)
    ensures ApplyAll(s, ClientEffects(cmdchar, cmd)).history == s.history
    ensures forall k :: 0 <= k < |ClientEffects(cmdchar, cmd)| ==> !ClientEffects(cmdchar, cmd)[k].Transaction?
  {
    var es := ClientEffects(cmdchar, cmd);
    match ParseDirective(cmdchar, cmd)
    case Clear => ApplyAllOne(s, es, ClearFrames);
    case Play(arg) =>
      if IsUrl(arg) {
        ApplyAllTwo(s, es, RemoteGet(arg), AddFrame(cmd, Some(PlayRemoteType)));
      } else {
        ApplyAllOne(s, es, AddFrame(cmd, Some(PlayType)));
      }
    case Unrecognized => ApplyAllOne(s, es, AddFrame(cmd, None));
  }

  /** The dispatch stage never touches history. */
  lemma DispatchKeepsHistory(s: State, cmdchar: string, cmd: string)
    ensures ApplyAll(s, DispatchEffects(cmdchar, cmd)).history == s.history
  {
    if StartsWith(cmd, cmdchar) {
      ApplyAllCons(s, CallClientCommand(cmdchar, cmd), ClientEffects(cmdchar, cmd));
      ClientKeepsHistory(s, cmdchar, cmd);
    } else {
      ApplyAllTwo(s, DispatchEffects(cmdchar, cmd), Transaction(cmd), AddFrame(cmd, None));
    }
  }

  /** Each iteration appends exactly its own command to history. */
  lemma IterationHistory(s: State, settings: Settings, cmd: string)
    ensures ApplyAll(s, IterationEffects(settings, cmd)).history == s.history + [cmd]
  {
    ApplyAllAppend(s, Prelude(cmd), DispatchEffects(settings.cmdchar, cmd));
    ApplyPrelude(s, cmd);
    DispatchKeepsHistory(s.(history := s.history + [cmd]), settings.cmdchar, cmd);
  }

  /** Every iteration starts by waiting for a queued command, then records it, then reads the
      settings; its only history effect is that one. */
  lemma IterationStartsWithHistory(settings: Settings, cmd: string)
    ensures var es := IterationEffects(settings, cmd);
      && |es| >= 4
      && es[0] == TakeCommand && es[1] == AddHistory(cmd) && es[2] == SelectSettings
      && forall k :: 0 <= k < |es| && k != 1 ==> !es[k].AddHistory?
  {
  }

  /** A text with the prefix is handed unchanged to `handleClientCommand`, whatever its keyword,
      and no database transaction follows. */
  lemma PrefixedIsDelegated(settings: Settings, cmd: string)
    requires StartsWith(cmd, settings.cmdchar)
    ensures IterationEffects(settings, cmd)[3] == CallClientCommand(settings.cmdchar, cmd)
    ensures IterationEffects(settings, cmd)[4..] == ClientEffects(settings.cmdchar, cmd)
    ensures forall k :: 0 <= k < |IterationEffects(settings, cmd)| ==> !IterationEffects(settings, cmd)[k].Transaction?
  {
    var es := IterationEffects(settings, cmd);
    assert es == Prelude(cmd) + [CallClientCommand(settings.cmdchar, cmd)] + ClientEffects(settings.cmdchar, cmd);
    ClientKeepsHistory(State([], [], 0), settings.cmdchar, cmd);
  }

  /** A text without the prefix is a query: one transaction, then one untyped frame for it. */
  lemma QueryIsTransactionThenFrame(settings: Settings, cmd: string, s: State)
    requires !StartsWith(cmd, settings.cmdchar)
    ensures Classify(settings.cmdchar, cmd) == Query
    ensures IterationEffects(settings, cmd)[3..] == [Transaction(cmd), AddFrame(cmd, None)]
    ensures ApplyAll(s, IterationEffects(settings, cmd)).frames == s.frames + [Frame(s.nextId, cmd, None)]
  {
    ApplyAllAppend(s, Prelude(cmd), DispatchEffects(settings.cmdchar, cmd));
    ApplyPrelude(s, cmd);
    ApplyAllTwo(s.(history := s.history + [cmd]), DispatchEffects(settings.cmdchar, cmd), Transaction(cmd), AddFrame(cmd, None));
  }

  /** The classification decides what the loop does: an iteration runs a database transaction exactly
      when its text is classified as a query, and a directive's iteration is the call of
      `handleClientCommand` followed by that directive's handler. */
  lemma ClassifyQueryIff(cmdchar: string, cmd: string)
    ensures var es := IterationEffects(Settings(cmdchar), cmd);
      Classify(cmdchar, cmd) == Query <==> exists k :: 0 <= k < |es| && es[k].Transaction?
    ensures Classify(cmdchar, cmd).Client? ==>
      IterationEffects(Settings(cmdchar), cmd)[3..]
        == [CallClientCommand(cmdchar, cmd)] + HandlerEffects(Classify(cmdchar, cmd).directive, cmd)
  {
    var es := IterationEffects(Settings(cmdchar), cmd);
    if StartsWith(cmd, cmdchar) {
      PrefixedIsDelegated(Settings(cmdchar), cmd);
    } else {
      QueryIsTransactionThenFrame(Settings(cmdchar), cmd, State([], [], 0));
      assert es[3] == Transaction(cmd);
    }
  }

  /** The keyword is a whitespace-free token that, with what follows it, makes up the text after the prefix. */
  lemma KeywordSplit(cmdchar: string, cmd: string)
    requires StartsWith(cmd, cmdchar)
    ensures var kw := Keyword(cmdchar, cmd);
      var rest := cmd[|cmdchar| + |kw|..];
      && cmd == cmdchar + kw + rest
      && (forall i :: 0 <= i < |kw| ==> !IsWhitespace(kw[i]))
      && (rest == [] || IsWhitespace(rest[0]))
  {
    var rest := AfterPrefix(cmdchar, cmd);
    var n := KeywordLength(rest);
    KeywordLengthSpec(rest);
    SliceOfSuffix(cmd, |cmdchar|, n);
    SplitInThree(cmd, |cmdchar|, |cmdchar| + n);
  }

  lemma SliceOfSuffix(s: string, i: nat, n: nat)
    requires i + n <= |s|
    ensures s[i..][..n] == s[i..i + n] && s[i..][n..] == s[i + n..]
  {
  }

  lemma SplitInThree(s: string, i: nat, j: nat)
    requires i <= j <= |s|
    ensures s == s[..i] + s[i..j] + s[j..]
  {
    assert s == s[..i] + s[i..];
    assert s[i..] == s[i..j] + s[j..];
  }

  /** `KeywordLength` stops exactly at the first whitespace character. */
  lemma {:induction false} KeywordLengthSpec(s: string)
    ensures forall i :: 0 <= i < KeywordLength(s) ==> !IsWhitespace(s[i])
    ensures KeywordLength(s) < |s| ==> IsWhitespace(s[KeywordLength(s)])
  {
    if s != [] && !IsWhitespace(s[0]) {
      KeywordLengthSpec(s[1..]);
      assert forall i :: 1 <= i < KeywordLength(s) ==> s[i] == s[1..][i - 1];
    }
  }

  /** `Trim` removes only whitespace, from both ends, and leaves none there. */
  lemma {:induction false} TrimStartSpec(s: string)
    ensures var r := TrimStart(s);
      && |r| <= |s| && r == s[|s| - |r|..]
      && (forall i :: 0 <= i < |s| - |r| ==> IsWhitespace(s[i]))
      && (r == [] || !IsWhitespace(r[0]))
  {
    if s != [] && IsWhitespace(s[0]) {
      TrimStartSpec(s[1..]);
      var r := TrimStart(s);
      assert forall i :: 1 <= i < |s| - |r| ==> s[i] == s[1..][i - 1];
    }
  }

  lemma {:induction false} TrimEndSpec(s: string)
    ensures var r := TrimEnd(s);
      && |r| <= |s| && r == s[..|r|]
      && (forall i :: |r| <= i < |s| ==> IsWhitespace(s[i]))
      && (r == [] || !IsWhitespace(r[|r| - 1]))
  {
    if s != [] && IsWhitespace(s[|s| - 1]) {
      TrimEndSpec(s[..|s| - 1]);
    }
  }

  /** The keyword length is the only length with the properties `KeywordLength` promises. */
  lemma {:induction false} KeywordLengthUnique(s: string, n: nat)
    requires n <= |s|
    requires forall i :: 0 <= i < n ==> !IsWhitespace(s[i])
    requires n < |s| ==> IsWhitespace(s[n])
    ensures KeywordLength(s) == n
  {
    if n > 0 {
      KeywordLengthUnique(s[1..], n - 1);
    }
  }

  /** An unrecognised keyword yields one untyped frame for the full text and no fetch or transaction. */
  lemma UnrecognizedMakesDefaultFrame(cmdchar: string, cmd: string)
    requires Keyword(cmdchar, cmd) != ClearKeyword && Keyword(cmdchar, cmd) != PlayKeyword
    ensures ClientEffects(cmdchar, cmd) == [AddFrame(cmd, None)]
    ensures NoExternalCalls(ClientEffects(cmdchar, cmd))
  {
  }

  /** `:clear` clears the stream and appends no frame, whatever its argument. */
  lemma ClearOnlyClears(cmdchar: string, cmd: string, s: State)
    requires Keyword(cmdchar, cmd) == ClearKeyword
    ensures ClientEffects(cmdchar, cmd) == [ClearFrames]
    ensures ApplyAll(s, ClientEffects(cmdchar, cmd)) == s.(frames := [])
  {
    ApplyAllOne(s, ClientEffects(cmdchar, cmd), ClearFrames);
  }

  /** `:play` with an argument that is not a URL appends a `play` frame at once, with no fetch. */
  lemma PlayLocal(cmdchar: string, cmd: string, s: State)
    requires Keyword(cmdchar, cmd) == PlayKeyword && !IsUrl(Argument(cmdchar, cmd))
    ensures ClientEffects(cmdchar, cmd) == [AddFrame(cmd, Some(PlayType))]
    ensures NoExternalCalls(ClientEffects(cmdchar, cmd))
    ensures ApplyAll(s, ClientEffects(cmdchar, cmd)).frames == s.frames + [Frame(s.nextId, cmd, Some(PlayType))]
  {
    ApplyAllOne(s, ClientEffects(cmdchar, cmd), AddFrame(cmd, Some(PlayType)));
  }

  /** `:play <url>` first fetches exactly that URL, then appends a `play-remote` frame. */
  lemma PlayRemote(cmdchar: string, cmd: string, s: State)
    requires Keyword(cmdchar, cmd) == PlayKeyword && IsUrl(Argument(cmdchar, cmd))
    ensures ClientEffects(cmdchar, cmd) == [RemoteGet(Argument(cmdchar, cmd)), AddFrame(cmd, Some(PlayRemoteType))]
    ensures ApplyAll(s, ClientEffects(cmdchar, cmd)).frames == s.frames + [Frame(s.nextId, cmd, Some(PlayRemoteType))]
  {
    ApplyAllTwo(s, ClientEffects(cmdchar, cmd), RemoteGet(Argument(cmdchar, cmd)), AddFrame(cmd, Some(PlayRemoteType)));
  }

  /** Every directive other than `:clear` appends exactly one frame, with a fresh id and the full text. */
  lemma DirectiveAppendsOneFrame(cmdchar: string, cmd: string, s: State)
    requires ParseDirective(cmdchar, cmd) != Clear
    ensures var after := ApplyAll(s, ClientEffects(cmdchar, cmd));
      && |after.frames| == |s.frames| + 1
      && after.frames[..|s.frames|] == s.frames
      && after.frames[|s.frames|].cmd == cmd
      && after.frames[|s.frames|].id == s.nextId
      && after.nextId == s.nextId + 1
  {
    var es := ClientEffects(cmdchar, cmd);
    match ParseDirective(cmdchar, cmd)
    case Play(arg) =>
      if IsUrl(arg) {
        ApplyAllTwo(s, es, RemoteGet(arg), AddFrame(cmd, Some(PlayRemoteType)));
      } else {
        ApplyAllOne(s, es, AddFrame(cmd, Some(PlayType)));
      }
    case Unrecognized =>
      ApplyAllOne(s, es, AddFrame(cmd, None));
  }

  /** Submitting the same query twice records it twice and appends two frames with distinct ids. */
  lemma NoDeduplication(settings: Settings, cmd: string, s: State)
    requires !StartsWith(cmd, settings.cmdchar)
    requires FreshIds(s)
    ensures var after := ApplyAll(s, IterationEffects(settings, cmd) + IterationEffects(settings, cmd));
      && after.history == s.history + [cmd, cmd]
      && |after.frames| == |s.frames| + 2
      && after.frames[|s.frames|].cmd == after.frames[|s.frames| + 1].cmd == cmd
      && after.frames[|s.frames|].id != after.frames[|s.frames| + 1].id
  {
    var es := IterationEffects(settings, cmd);
    ApplyAllAppend(s, es, es);
    var mid := ApplyAll(s, es);
    QueryIsTransactionThenFrame(settings, cmd, s);
    QueryIsTransactionThenFrame(settings, cmd, mid);
    IterationHistory(s, settings, cmd);
    IterationHistory(mid, settings, cmd);
    ApplyAllKeepsFreshIds(s, es + es);
  }

  lemma {:induction false} ConcatAppend<T>(a: seq<T>, b: seq<T>, f: T -> seq<Effect>)
    ensures Concat(a + b, f) == Concat(a, f) + Concat(b, f)
    decreases |b|
  {
    if b != [] {
      assert (a + b)[..|a + b| - 1] == a + b[..|b| - 1];
      ConcatAppend(a, b[..|b| - 1], f);
    } else {
      assert a + b == a;
    }
  }

  lemma ConcatSnoc<T>(xs: seq<T>, i: nat, f: T -> seq<Effect>)
    requires i < |xs|
    ensures Concat(xs[..i + 1], f) == Concat(xs[..i], f) + f(xs[i])
  {
    assert xs[..i + 1][..i] == xs[..i];
  }

  lemma ConcatSplit<T>(xs: seq<T>, n: nat, f: T -> seq<Effect>)
    requires n < |xs|
    ensures Concat(xs, f) == Concat(xs[..n], f) + f(xs[n]) + Concat(xs[n + 1..], f)
  {
    assert xs == xs[..n + 1] + xs[n + 1..];
    ConcatAppend(xs[..n + 1], xs[n + 1..], f);
    ConcatSnoc(xs, n, f);
  }

  /** The loop's effects over two batches of submissions are the effects of each batch, in order. */
  lemma RunEffectsAppend(a: seq<Submission>, b: seq<Submission>)
    ensures RunEffects(a + b) == RunEffects(a) + RunEffects(b)
  {
    ConcatAppend(a, b, Block);
  }

  /** Handling one more submission adds its iteration's effects and its text at the end. */
  lemma RunSnoc(subs: seq<Submission>, i: nat)
    requires i < |subs|
    ensures RunEffects(subs[..i + 1]) == RunEffects(subs[..i]) + IterationEffects(subs[i].settings, subs[i].cmd)
    ensures Texts(subs[..i + 1]) == Texts(subs[..i]) + [subs[i].cmd]
  {
    ConcatSnoc(subs, i, Block);
    assert subs[..i + 1][..i] == subs[..i];
  }

  /** Issuing and applying a block of effects after earlier ones is issuing and applying both at once. */
  lemma Extend(s0: State, e0: seq<Effect>, done: seq<Effect>, block: seq<Effect>,
               before: State, handled: seq<Effect>, after: State, issued: seq<Effect>)
    requires handled == e0 + done && before == ApplyAll(s0, done)
    requires issued == handled + block && after == ApplyAll(before, block)
    ensures issued == e0 + (done + block) && after == ApplyAll(s0, done + block)
  {
    ApplyAllAppend(s0, done, block);
  }

  /** One iteration of the loop extends the effects, the state and the history of the earlier ones. */
  lemma RunStep(s0: State, e0: seq<Effect>, subs: seq<Submission>, i: nat,
                before: State, handled: seq<Effect>, after: State, issued: seq<Effect>)
    requires i < |subs|
    requires handled == e0 + RunEffects(subs[..i]) && before == ApplyAll(s0, RunEffects(subs[..i]))
    requires before.history == s0.history + Texts(subs[..i])
    requires issued == handled + IterationEffects(subs[i].settings, subs[i].cmd)
    requires after == ApplyAll(before, IterationEffects(subs[i].settings, subs[i].cmd))
    ensures issued == e0 + RunEffects(subs[..i + 1]) && after == ApplyAll(s0, RunEffects(subs[..i + 1]))
    ensures after.history == s0.history + Texts(subs[..i + 1])
  {
    RunSnoc(subs, i);
    Extend(s0, e0, RunEffects(subs[..i]), IterationEffects(subs[i].settings, subs[i].cmd), before, handled, after, issued);
    IterationHistory(before, subs[i].settings, subs[i].cmd);
  }

  /** The loop's effects are the per-command blocks in submission order: command n is handled completely
      after every earlier command and before every later one. */
  lemma RunIsSequential(subs: seq<Submission>, n: nat)
    requires n < |subs|
    ensures RunEffects(subs) == RunEffects(subs[..n]) + IterationEffects(subs[n].settings, subs[n].cmd) + RunEffects(subs[n + 1..])
  {
    ConcatSplit(subs, n, Block);
  }

  /** The play-directive URL test agrees with the two inputs the tests use. */
  lemma IsUrlOnTestInputs()
    ensures IsUrl("http://test.test")
    ensures !IsUrl("a")
  {
  }

  /** The tests' inputs to `handleClientCommand`, with `cmdchar` set to ":". */
  lemma UnknownOnTestInput()
    ensures ClientEffects(":", ":unknown") == [AddFrame(":unknown", None)]
  {
    assert AfterPrefix(":", ":unknown") == "unknown";
    KeywordLengthUnique("unknown", 7);
    assert "unknown"[..7] == "unknown";
  }

  lemma ClearOnTestInput()
    ensures ClientEffects(":", ":clear") == [ClearFrames]
  {
    assert AfterPrefix(":", ":clear") == "clear";
    KeywordLengthUnique("clear", 5);
    assert "clear"[..5] == "clear";
  }

  lemma PlayOnTestInput()
    ensures ClientEffects(":", ":play a") == [AddFrame(":play a", Some(PlayType))]
  {
    assert AfterPrefix(":", ":play a") == "play a";
    KeywordLengthUnique("play a", 4);
    assert "play a"[..4] == "play";
    assert "play a"[4..] == " a";
    assert " a"[1..] == "a";
    assert TrimStart(" a") == "a";
    assert Argument(":", ":play a") == "a";
    IsUrlOnTestInputs();
  }

  lemma PlayUrlOnTestInput()
    ensures ClientEffects(":", ":play http://test.test")
      == [RemoteGet("http://test.test"), AddFrame(":play http://test.test", Some(PlayRemoteType))]
  {
    PlayUrlKeywordAndArgument();
    IsUrlOnTestInputs();
    PlayRemote(":", ":play http://test.test", State([], [], 0));
  }

  lemma PlayUrlKeywordAndArgument()
    ensures Keyword(":", ":play http://test.test") == PlayKeyword
    ensures Argument(":", ":play http://test.test") == "http://test.test"
  {
    var rest := "play http://test.test";
    PlayUrlSplit();
    assert rest[..4] == "play";
    TrimOfPaddedUrl();
  }

  lemma PlayUrlSplit()
    ensures AfterPrefix(":", ":play http://test.test") == "play http://test.test"
    ensures KeywordLength("play http://test.test") == 4
    ensures "play http://test.test"[4..] == " http://test.test"
  {
    KeywordLengthUnique("play http://test.test", 4);
  }

  lemma TrimOfPaddedUrl()
    ensures Trim(" http://test.test") == "http://test.test"
  {
    var url := "http://test.test";
    assert (" " + url)[1..] == url;
    assert TrimStart(" " + url) == url;
    assert url[15] == 't';
  }

  /** The tests' inputs to `watchCommands`, with `cmdchar` set to ":". */
  lemma WatchCommandsOnTestInputs()
    ensures IterationEffects(Settings(":"), ":help")
      == [TakeCommand, AddHistory(":help"), SelectSettings, CallClientCommand(":", ":help"), AddFrame(":help", None)]
    ensures IterationEffects(Settings(":"), "RETURN 1")
      == [TakeCommand, AddHistory("RETURN 1"), SelectSettings, Transaction("RETURN 1"), AddFrame("RETURN 1", None)]
  {
    KeywordLengthUnique("help", 4);
    assert AfterPrefix(":", ":help") == "help";
    assert "RETURN 1"[..1][0] == 'R';
    assert !StartsWith("RETURN 1", ":");
  }
}
