/**
 * What the Kconfig interpreter guarantees, stated over `KconfigSpec` and proved: how block
 * openers and closers move the mode history, how help text accumulates, what variable and
 * `source` lines record, and the well-formedness every parse keeps.
 */
module KconfigProperties {
  import opened Wrappers
  import opened Errors
  import opened Text
  import opened KconfigSpec

  // ---------------------------------------------------------------------------------------
  // The mode history

  /** Popping right after a push leaves the pushed value as the mode and the history as it was. */
  lemma PushThenPop(s: ParserState, m: string)
    requires m != ""
    ensures AssignMode(s, Some(m)).Success?
    ensures AssignMode(AssignMode(s, Some(m)).value, None) == Success(s.(mode := Some(m)))
  {
    var pushed := s.history + [m];
    assert pushed[..|pushed| - 1] == s.history;
  }

  /** Popping an empty history raises; a non-empty one yields its last entry as the mode. */
  lemma PopTakesLastEntry(s: ParserState)
    ensures s.history == [] ==> AssignMode(s, None) == Failure(EmptyModeHistory)
    ensures s.history != [] ==>
      && AssignMode(s, None).Success?
      && AssignMode(s, None).value.mode == Some(s.history[|s.history| - 1])
      && AssignMode(s, None).value.history + [s.history[|s.history| - 1]] == s.history
  {
  }

  /**
   * Helper for `CloserPopsOnce`, a fact about the constant closer strings rather than a
   * property of the parser: each closer occurs only in itself among the closers.
   */
  lemma ClosersDisjoint()
    ensures Contains("endmenu", "endmenu") && !Contains("endmenu", "endchoice") && !Contains("endmenu", "endif")
    ensures !Contains("endchoice", "endmenu") && Contains("endchoice", "endchoice") && !Contains("endchoice", "endif")
    ensures !Contains("endif", "endmenu") && !Contains("endif", "endchoice") && Contains("endif", "endif")
  {
    assert OccursAt("endmenu", "endmenu", 0);
    assert OccursAt("endchoice", "endchoice", 0);
    assert OccursAt("endif", "endif", 0);
    AbsentCharNotContained("endmenu", "endchoice", 'c');
    AbsentCharNotContained("endmenu", "endif", 'i');
    AbsentCharNotContained("endchoice", "endmenu", 'm');
    AbsentCharNotContained("endchoice", "endif", 'f');
    AbsentCharNotContained("endif", "endmenu", 'm');
    AbsentCharNotContained("endif", "endchoice", 'c');
  }

  /**
   * A closer line pops exactly one entry, whatever kind of block the mode names: there is
   * no check that `endchoice` closes a choice.
   */
  lemma CloserPopsOnce(s: ParserState, c: string)
    requires c in Closers
    ensures PopMatching(s, c, Closers) ==
      if s.mode.None? then Failure(MissingAttribute("mode")) else AssignMode(s, None)
  {
    ClosersDisjoint();
    assert Closers[1..][1..] == ["endif"];
  }

  /**
   * Closing: the popped entry becomes the mode and help mode ends; the only other outcomes are
   * the errors of reading an unset mode, of popping an empty history, or of naming the current
   * record of the restored mode when help mode was on.
   */
  lemma CloserOutcome(s: ParserState, c: string)
    requires c in Closers
    ensures s.mode.None? ==> ExitModeSpec(s, c) == Failure(MissingAttribute("mode"))
    ensures s.mode.Some? && s.history == [] ==> ExitModeSpec(s, c) == Failure(EmptyModeHistory)
    ensures s.mode.Some? && s.history != [] ==>
      var popped := s.(mode := Some(s.history[|s.history| - 1]), history := s.history[..|s.history| - 1], helpMode := false);
      ExitModeSpec(s, c) ==
        if s.helpMode && CurrentName(popped).Failure? then Failure(CurrentName(popped).error) else Success(popped)
  {
    CloserPopsOnce(s, c);
  }

  // ---------------------------------------------------------------------------------------
  // Opening blocks

  /** A raw line that needs neither trailing-whitespace removal nor variable substitution. */
  predicate Settled(line: string) {
    RStrip(line) == line && '$' !in line
  }

  /** A settled line is handled as written. */
  lemma SettledUnchanged(line: string, arch: string)
    requires Settled(line)
    ensures SubstituteVars(RStrip(line), arch) == line
  {
  }

  lemma KeywordStarts(line: string, kw: string)
    requires kw in Starts && StartsKeyword(line, kw)
    ensures StartsAny(line, Starts)
    ensures LStrip(line) == line && line != "help"
    ensures !StartsWith(line, "prompt") && !SkipLine(line) && line !in Closers
  {
    var i :| 0 <= i < |Starts| && Starts[i] == kw;
    assert line[0] == kw[0];
    LStripKeeps(line);
  }

  /** `_enter_mode` on `kw name` outside help mode. */
  lemma EnterKeywordName(s: ParserState, kw: string, name: string)
    requires kw in Starts && !s.helpMode
    ensures
      var line := kw + " " + name;
      EnterModeSpec(s, line) ==
        Success(OpenRecord(s.(mode := Some(kw), history := s.history + [line, kw]), KindNamed(kw).value, name))
  {
    var line := kw + " " + name;
    SplitAtFirst(kw, name, ' ');
    assert kw + [' '] + name == line;
    assert line[|kw|] == ' ';
    assert line != "help" && ' ' in line;
    var s1 := s.(mode := Some(line), history := s.history + [line]);
    assert AssignMode(s, Some(line)) == Success(s1);
    assert AssignMode(s1, Some(kw)) == Success(s1.(mode := Some(kw), history := s1.history + [kw]));
    assert s1.history + [kw] == s.history + [line, kw];
  }

  /** `_enter_mode` on a bare keyword outside help mode. */
  lemma EnterBareKeyword(s: ParserState, kw: string)
    requires kw in Starts && !s.helpMode
    ensures EnterModeSpec(s, kw) == Success(s.(mode := Some(kw), history := s.history + [kw]))
  {
    assert ' ' !in kw && kw != "help";
  }

  /** `_enter_mode` on `kw name` in help mode. */
  lemma EnterKeywordNameInHelp(s: ParserState, kw: string, name: string)
    requires kw in Starts && s.helpMode && CurrentName(s).Success?
    ensures
      var line := kw + " " + name;
      EnterModeSpec(s, line) ==
        Success(OpenRecord(s.(helpMode := false, mode := Some(kw), history := s.history + [kw]), KindNamed(kw).value, name))
  {
    var line := kw + " " + name;
    SplitAtFirst(kw, name, ' ');
    assert kw + [' '] + name == line;
    assert line[|kw|] == ' ';
  }

  /** A settled line that starts with a block keyword goes to `_enter_mode` as it is. */
  lemma StepOnOpener(s: ParserState, arch: string, line: string, kw: string)
    requires kw in Starts && StartsKeyword(line, kw) && Settled(line)
    ensures Step(s, arch, line) == EnterModeSpec(s, line)
  {
    SettledUnchanged(line, arch);
    KeywordStarts(line, kw);
    assert Step(s, arch, line) == Interpret(s, line);
  }

  /** A block keyword needs neither trailing-whitespace removal nor substitution. */
  lemma KeywordSettled(kw: string)
    requires kw in Starts
    ensures Settled(kw)
  {
    assert kw[|kw| - 1] != ' ' && kw[|kw| - 1] in "uegf";
    RStripKeeps(kw);
  }

  /**
   * Outside help mode, `kw name` pushes the whole line and then the keyword, and makes `name`
   * the current record of that kind, emptied unless the name is a dictionary attribute.
   */
  lemma StartLineOpensBlock(s: ParserState, arch: string, kw: string, name: string)
    requires kw in Starts && !s.helpMode
    requires Settled(kw + " " + name)
    ensures
      var line := kw + " " + name;
      Step(s, arch, line) ==
        Success(OpenRecord(s.(mode := Some(kw), history := s.history + [line, kw]), KindNamed(kw).value, name))
  {
    var line := kw + " " + name;
    assert line[..|kw|] == kw && line[|kw|] == ' ';
    StepOnOpener(s, arch, line, kw);
    EnterKeywordName(s, kw, name);
  }

  /** A bare keyword line opens a block without a name: only the keyword is pushed. */
  lemma BareStartLine(s: ParserState, arch: string, kw: string)
    requires kw in Starts && !s.helpMode
    ensures Step(s, arch, kw) == Success(s.(mode := Some(kw), history := s.history + [kw]))
  {
    assert kw[..|kw|] == kw;
    KeywordSettled(kw);
    StepOnOpener(s, arch, kw, kw);
    EnterBareKeyword(s, kw);
  }

  /**
   * In help mode a start line only ends help mode and pushes its keyword: unlike outside help
   * mode, the whole line is not pushed.
   */
  lemma StartLineEndsHelp(s: ParserState, arch: string, kw: string, name: string)
    requires kw in Starts && s.helpMode && CurrentName(s).Success?
    requires Settled(kw + " " + name)
    ensures
      var line := kw + " " + name;
      Step(s, arch, line) ==
        Success(OpenRecord(s.(helpMode := false, mode := Some(kw), history := s.history + [kw]), KindNamed(kw).value, name))
  {
    var line := kw + " " + name;
    assert line[..|kw|] == kw && line[|kw|] == ' ';
    StepOnOpener(s, arch, line, kw);
    EnterKeywordNameInHelp(s, kw, name);
  }

  /** A closer line goes straight to `_exit_mode`. */
  lemma StepOnCloser(s: ParserState, arch: string, c: string)
    requires c in Closers
    ensures Step(s, arch, c) == ExitModeSpec(s, c)
  {
    assert Settled(c) by {
      assert c[|c| - 1] == 'u' || c[|c| - 1] == 'e' || c[|c| - 1] == 'f';
      RStripKeeps(c);
    }
    SettledUnchanged(c, arch);
    assert !SkipLine(c) by {
      assert c[..1] == "e";
    }
  }

  /**
   * Opening a block and closing it again leaves the keyword as the mode and the opening line
   * on the history: the mode that was current before the block is not restored.
   */
  lemma OpenThenClose(s: ParserState, arch: string, kw: string, name: string, c: string)
    requires kw in Starts && !s.helpMode && c in Closers
    requires Settled(kw + " " + name)
    ensures
      var line := kw + " " + name;
      Step(s, arch, line).Success?
      && Step(Step(s, arch, line).value, arch, c).Success?
      && Step(Step(s, arch, line).value, arch, c).value.mode == Some(kw)
      && Step(Step(s, arch, line).value, arch, c).value.history == s.history + [line]
  {
    var line := kw + " " + name;
    StartLineOpensBlock(s, arch, kw, name);
    var s1 := Step(s, arch, line).value;
    assert s1.history == s.history + [line, kw];
    StepOnCloser(s1, arch, c);
    CloserOutcome(s1, c);
    assert s1.history[..|s1.history| - 1] == s.history + [line];
  }

  // ---------------------------------------------------------------------------------------
  // Help text

  /** A line whose left-stripped form is `help` holds no `$` and does not start with `#`. */
  lemma {:induction false} HelpLineShape(line: string)
    requires LStrip(line) == "help"
    ensures '$' !in line && line != [] && line[0] != '#' && line[|line| - 1] == 'p'
    decreases |line|
  {
    if line != [] && IsSpace(line[0]) {
      HelpLineShape(line[1..]);
      assert line == [line[0]] + line[1..];
    } else {
      assert line == "help";
    }
  }

  /** `_test_start` accepts a line whose left-stripped form is `help`, and `_enter_mode` begins help. */
  lemma HelpLineEntersHelp(s: ParserState, line: string)
    requires LStrip(line) == "help"
    ensures TestStart(s.mode.Some? && s.mode.value != "", line)
    ensures EnterModeSpec(s, LStrip(line)) == BeginHelp(s)
  {
    assert LStrip("help") == "help" by {
      LStripKeeps("help");
    }
    EnterHelp(s);
  }

  /** `_enter_mode` on `help` is the help branch alone: the line has no space to split. */
  lemma EnterHelp(s: ParserState)
    ensures EnterModeSpec(s, "help") == BeginHelp(s)
  {
    assert ' ' !in "help";
    if BeginHelp(s).Success? {
      assert !BeginHelp(s).value.helpMode ==> ' ' !in "help";
    }
  }

  /** A line whose left-stripped form is `help` is neither skipped, a closer nor a prompt. */
  lemma HelpLineNotStructural(line: string)
    requires LStrip(line) == "help"
    ensures '$' !in line && !SkipLine(line) && line !in Closers && !StartsWith(LStrip(line), "prompt")
  {
    HelpLineShape(line);
    EndsInPNotStructural(line);
    assert !StartsWith("help", "prompt");
  }

  /** A non-empty line that does not start with `#` and ends in `p` is neither skipped nor a closer. */
  lemma EndsInPNotStructural(line: string)
    requires line != [] && line[0] != '#' && line[|line| - 1] == 'p'
    ensures !SkipLine(line) && line !in Closers
  {
    assert line !in Closers by {
      assert Closers[0][6] == 'u' && Closers[1][8] == 'e' && Closers[2][4] == 'f';
    }
    assert !SkipLine(line) by {
      assert line[..1][0] == line[0];
    }
  }

  /** A `help` line, however indented, goes to the `help` branch of `_enter_mode`. */
  lemma HelpLineBeginsHelp(s: ParserState, arch: string, raw: string)
    requires LStrip(RStrip(raw)) == "help"
    ensures Step(s, arch, raw) == BeginHelp(s)
  {
    var line := RStrip(raw);
    HelpLineNotStructural(line);
    assert SubstituteVars(line, arch) == line;
    HelpLineEntersHelp(s, line);
    assert Step(s, arch, raw) == Interpret(s, line);
  }

  /** A second `help` line does not reset the text collected so far. */
  lemma BeginHelpIdempotent(s: ParserState)
    requires BeginHelp(s).Success?
    ensures BeginHelp(BeginHelp(s).value) == BeginHelp(s)
  {
    var (k, n) := CurrentRecord(s).value;
    var s1 := BeginHelp(s).value;
    assert CurrentRecord(s1) == Success((k, n));
  }

  /** Entering help keeps any text the record already has and starts an empty one otherwise. */
  lemma BeginHelpKeepsText(s: ParserState, k: Kind, n: string)
    requires CurrentRecord(s) == Success((k, n))
    ensures BeginHelp(s).Success? && BeginHelp(s).value.helpMode
    ensures "help" in BeginHelp(s).value.blocks.Get(k)[n]
    ensures BeginHelp(s).value.blocks.Get(k)[n]["help"] ==
      if "help" in s.blocks.Get(k)[n] then s.blocks.Get(k)[n]["help"] else ""
  {
  }

  /** A line that help mode appends: not skipped, not structural, not a variable line. */
  predicate HelpBody(arch: string, raw: string) {
    var line := SubstituteVars(RStrip(raw), arch);
    !SkipLine(line) && line !in Closers && !StartsWith(LStrip(line), "prompt")
    && !TestStart(true, line) && !TestVar(LStrip(line))
  }

  /** Every line of `raws` is a help line. */
  predicate HelpBodies(arch: string, raws: seq<string>)
    decreases |raws|
  {
    raws == [] || (HelpBody(arch, raws[0]) && HelpBodies(arch, raws[1..]))
  }

  /** The text help lines contribute: each left-stripped, joined without a separator. */
  function HelpText(arch: string, raws: seq<string>): string
    decreases |raws|
  {
    if raws == [] then "" else LStrip(SubstituteVars(RStrip(raws[0]), arch)) + HelpText(arch, raws[1..])
  }

  /** In help mode, with a mode set, a help line goes to the help-text branch. */
  lemma StepOnHelpText(s: ParserState, arch: string, raw: string)
    requires s.helpMode && s.mode.Some? && s.mode.value != "" && HelpBody(arch, raw)
    ensures Step(s, arch, raw) == AppendHelpSpec(s, LStrip(SubstituteVars(RStrip(raw), arch)))
  {
  }

  lemma WithFieldTwice(s: ParserState, k: Kind, n: string, field: string, a: string, b: string)
    requires n in s.blocks.Get(k)
    ensures WithField(WithField(s, k, n, field, a), k, n, field, b) == WithField(s, k, n, field, b)
  {
    var records := s.blocks.Get(k);
    var once := records[n := records[n][field := a]];
    assert once[n][field := b] == records[n][field := b];
    assert once[n := once[n][field := b]] == records[n := records[n][field := b]];
    SetTwice(s.blocks, k, once, once[n := once[n][field := b]]);
  }

  lemma SetTwice(b: Blocks, k: Kind, x: Records, y: Records)
    ensures b.Set(k, x).Set(k, y) == b.Set(k, y)
  {
  }

  /** Appending help text keeps the record current and its `help` field present. */
  lemma AppendHelpOnRecord(s: ParserState, t: string, k: Kind, n: string)
    requires CurrentRecord(s) == Success((k, n)) && "help" in s.blocks.Get(k)[n]
    ensures var s1 := WithField(s, k, n, "help", s.blocks.Get(k)[n]["help"] + t);
      AppendHelpSpec(s, t) == Success(s1)
      && s1.helpMode == s.helpMode && CurrentRecord(s1) == Success((k, n)) && "help" in s1.blocks.Get(k)[n]
  {
    assert KindName(k) != "";
    var s1 := WithField(s, k, n, "help", s.blocks.Get(k)[n]["help"] + t);
    assert CurrentRecord(s1) == Success((k, n));
  }

  lemma ConcatAssociates(a: string, b: string, c: string)
    ensures a + b + c == a + (b + c)
  {
  }

  /** One help line appends its left-stripped text and keeps the same record current. */
  lemma HelpLineAppends(s: ParserState, arch: string, raw: string, k: Kind, n: string)
    requires s.helpMode && CurrentRecord(s) == Success((k, n)) && "help" in s.blocks.Get(k)[n]
    requires HelpBody(arch, raw)
    ensures
      var s1 := WithField(s, k, n, "help", s.blocks.Get(k)[n]["help"] + LStrip(SubstituteVars(RStrip(raw), arch)));
      Step(s, arch, raw) == Success(s1)
      && s1.helpMode && CurrentRecord(s1) == Success((k, n)) && "help" in s1.blocks.Get(k)[n]
  {
    var t := LStrip(SubstituteVars(RStrip(raw), arch));
    assert Step(s, arch, raw) == AppendHelpSpec(s, t) by {
      assert KindName(k) != "";
      StepOnHelpText(s, arch, raw);
    }
    AppendHelpOnRecord(s, t, k, n);
  }

  /** A parse whose first line succeeds goes on from the state that line leaves. */
  lemma RunFirstStep(s: ParserState, arch: string, lines: seq<string>, s1: ParserState)
    requires lines != [] && Step(s, arch, lines[0]) == Success(s1)
    ensures Run(s, arch, lines) == Run(s1, arch, lines[1..])
  {
  }

  /** In help mode each help line is appended to the current record's text. */
  lemma {:induction false} HelpTextAccumulates(s: ParserState, arch: string, raws: seq<string>, k: Kind, n: string)
    requires s.helpMode && CurrentRecord(s) == Success((k, n)) && "help" in s.blocks.Get(k)[n]
    requires HelpBodies(arch, raws)
    ensures Run(s, arch, raws) ==
      Success(WithField(s, k, n, "help", s.blocks.Get(k)[n]["help"] + HelpText(arch, raws)))
    decreases |raws|
  {
    var old_ := s.blocks.Get(k)[n]["help"];
    if raws == [] {
      assert s.blocks.Get(k)[n]["help" := old_] == s.blocks.Get(k)[n];
      assert s.blocks.Get(k)[n := s.blocks.Get(k)[n]] == s.blocks.Get(k);
      assert old_ + "" == old_;
    } else {
      var t := LStrip(SubstituteVars(RStrip(raws[0]), arch));
      var rest := HelpText(arch, raws[1..]);
      var s1 := WithField(s, k, n, "help", old_ + t);
      HelpLineAppends(s, arch, raws[0], k, n);
      RunFirstStep(s, arch, raws, s1);
      HelpTextAccumulates(s1, arch, raws[1..], k, n);
      WithFieldTwice(s, k, n, "help", old_ + t, old_ + t + rest);
      assert HelpText(arch, raws) == t + rest;
      ConcatAssociates(old_, t, rest);
    }
  }

  // ---------------------------------------------------------------------------------------
  // Variable lines

  /** On the current record, `type prompt` writes the type and the unquoted prompt. */
  lemma WriteTypeAndPrompt(s: ParserState, k: Kind, n: string, v: string, prompt: string)
    requires CurrentRecord(s) == Success((k, n)) && ' ' !in v
    ensures WriteType(s, v + " " + prompt) ==
      Success(WithField(WithField(s, k, n, "type", v), k, n, "prompt", Strip(prompt, '"')))
  {
    assert v + " " + prompt == v + [' '] + prompt;
    SplitAtFirst(v, prompt, ' ');
  }

  /** In a config or menuconfig block, `type prompt` sets the type and the unquoted prompt. */
  lemma TypeLineSetsTypeAndPrompt(s: ParserState, k: Kind, n: string, v: string, prompt: string)
    requires s.mode == Some("config") || s.mode == Some("menuconfig")
    requires CurrentRecord(s) == Success((k, n)) && v in VarTypes
    ensures ProcessVarSpec(s, v + " " + prompt) ==
      Success(WithField(WithField(s, k, n, "type", v), k, n, "prompt", Strip(prompt, '"')))
  {
    VarTypeWord(v, prompt);
    assert s.mode.value in VarModes && s.mode.value != "choice";
    WriteTypeAndPrompt(s, k, n, v, prompt);
  }

  /**
   * A `def_type rest` line records `type rest` as the default and leaves the type empty: the
   * text after `def_` is the default, and the text before it (nothing) is the type.
   */
  lemma DefLineSetsDefault(s: ParserState, k: Kind, n: string, v: string, rest: string)
    requires s.mode == Some("config") || s.mode == Some("menuconfig")
    requires CurrentRecord(s) == Success((k, n)) && v in VarTypes && !Contains(v + rest, "def_")
    ensures ProcessVarSpec(s, "def_" + v + rest) ==
      Success(WithField(WithField(s, k, n, "default", v + rest), k, n, "type", ""))
  {
    var line := "def_" + v + rest;
    assert line[..4] == "def_" && line[4..] == v + rest;
    BeforeAbsent(v + rest, "def_");
    assert Before(line, "def_") == [];
    var s2 := WithField(s, k, n, "default", v + rest);
    assert CurrentRecord(s2) == Success((k, n));
    assert s.mode.value in VarModes && s.mode.value != "choice";
  }

  /**
   * Helper for the type-line lemmas, a fact about the constant type keywords rather than a
   * property of the parser: a type keyword holds no quote and no space, and does not start
   * with `def_`.
   */
  lemma VarTypeWord(v: string, rest: string)
    requires v in VarTypes
    ensures '"' !in v && ' ' !in v && v != [] && !StartsWith(v + " " + rest, "def_")
  {
    assert (v + " " + rest)[0] == v[0];
  }

  /** In a choice block the quoted text of `type "prompt"` selects the choice `prompt`. */
  lemma ChoiceQuoteSelects(s: ParserState, v: string, p: string)
    requires v in VarTypes && '"' !in p
    ensures ChoosePrompt(s, v + " " + ("\"" + p + "\"")) == Success(OpenRecord(s, Choice, p))
  {
    var line := v + " " + ("\"" + p + "\"");
    VarTypeWord(v, "");
    assert line == (v + " ") + ['"'] + (p + "\"");
    SplitAtFirst(v + " ", p + "\"", '"');
    BeforeClosing(p, '"');
  }

  /**
   * In a choice block a type line with a quoted prompt names the choice: the record under
   * the prompt is reset, made current, and given the type and the prompt (see
   * `FreshChoiceFields` for what the record then holds).
   */
  lemma ChoiceTypeLineNamesChoice(s: ParserState, v: string, p: string)
    requires s.mode == Some("choice") && v in VarTypes
    requires '"' !in p && p !in DictAttributes
    ensures ProcessVarSpec(s, v + " " + ("\"" + p + "\"")) ==
      Success(WithField(WithField(OpenRecord(s, Choice, p), Choice, p, "type", v), Choice, p, "prompt", p))
  {
    var quoted := "\"" + p + "\"";
    var line := v + " " + quoted;
    VarTypeWord(v, quoted);
    ChoiceQuoteSelects(s, v, p);
    var s1 := OpenRecord(s, Choice, p);
    assert CurrentRecord(s1) == Success((Choice, p));
    WriteTypeAndPrompt(s1, Choice, p, v, quoted);
    StripQuoted(p);
    assert s.mode.value in VarModes;
    assert ProcessVarSpec(s, line) == WriteType(s1, line);
  }

  /**
   * A type line `v "p"` starts with no block keyword, not with `prompt` or `#`, ends in a
   * quote, and passes the type-line test.
   */
  lemma VarLineShape(v: string, p: string)
    requires v in VarTypes
    ensures
      var t := v + " " + Quoted(p);
      && !StartsAny(t, Starts) && !StartsWith(t, "prompt") && TestVar(t)
      && t != [] && !IsSpace(t[0]) && t[0] != '#' && t[|t| - 1] == '"' && t != "help"
  {
    var t := v + " " + Quoted(p);
    assert t[..|v|] == v && t[|v|] == ' ' && t[0] == v[0] && t[1] == v[1];
    assert StartsKeyword(t, v);
    var j :| 0 <= j < |VarTypes| && VarTypes[j] == v;
    assert TestVar(t);
    assert v[0] in "btis" && (v[0] == 'i' ==> v[1] == 'n');
    forall i | 0 <= i < |Starts|
      ensures !StartsWith(t, Starts[i])
    {
      var kw := Starts[i];
      assert kw[0] in "mci" && (kw[0] == 'i' ==> kw[1] == 'f');
      assert |kw| <= |t| ==> t[..|kw|][0] == t[0] && t[..|kw|][1] == t[1];
    }
    assert !StartsWith(t, "prompt") by {
      assert |t| >= 6 ==> t[..6][0] == t[0];
    }
  }

  /** No type keyword and no quoted text holds a `$`. */
  lemma VarLineNoDollar(v: string, p: string)
    requires v in VarTypes && '$' !in p
    ensures '$' !in v + " " + Quoted(p)
  {
    assert '$' !in v;
  }

  /**
   * `parse_line` on a type line `v "p"` indented by whitespace: trailing whitespace, skipping,
   * closers, prompts and block starts all pass it by, and the left-stripped text goes to
   * `_process_var`.
   */
  lemma TypeLineStep(s: ParserState, arch: string, ind: string, v: string, p: string)
    requires forall i :: 0 <= i < |ind| ==> IsSpace(ind[i])
    requires v in VarTypes && '$' !in p
    ensures Step(s, arch, ind + (v + " " + Quoted(p))) == ProcessVarSpec(s, v + " " + Quoted(p))
  {
    var t := v + " " + Quoted(p);
    var raw := ind + t;
    assert Settled(raw) by {
      VarLineShape(v, p);
      assert raw[|raw| - 1] == t[|t| - 1];
      RStripKeeps(raw);
      VarLineNoDollar(v, p);
      assert '$' !in ind;
    }
    assert Step(s, arch, raw) == Interpret(s, raw) by {
      SettledUnchanged(raw, arch);
    }
    assert Interpret(s, raw) == Content(s, t) by {
      IndentedLineRouting(ind, v, p);
      IndentedContent(s, ind, t);
    }
    assert TestVar(t) by {
      VarLineShape(v, p);
    }
  }

  /** The facts `parse_line` tests on an indented type line, before it reaches `Content`. */
  lemma IndentedLineRouting(ind: string, v: string, p: string)
    requires forall i :: 0 <= i < |ind| ==> IsSpace(ind[i])
    requires v in VarTypes
    ensures
      var t := v + " " + Quoted(p);
      && LStrip(ind + t) == t && LStrip(t) == t && !SkipLine(ind + t) && ind + t !in Closers
      && !StartsWith(t, "prompt") && !StartsAny(ind + t, Starts) && !StartsAny(t, Starts) && t != "help"
  {
    var t := v + " " + Quoted(p);
    VarLineEdges(v, p);
    VarLineShape(v, p);
    LStripKeeps(t);
    IndentedRouting(ind, t);
  }

  /**
   * Indenting a text that starts with neither whitespace nor `#`, ends in a quote and is no
   * start line gives a line that is not skipped, not a closer and not a start line, and that
   * left-strips back to the text.
   */
  lemma IndentedRouting(ind: string, t: string)
    requires forall i :: 0 <= i < |ind| ==> IsSpace(ind[i])
    requires t != [] && t[0] != '#' && !IsSpace(t[0]) && t[|t| - 1] == '"'
    requires !StartsAny(t, Starts)
    ensures LStrip(ind + t) == t && !SkipLine(ind + t) && ind + t !in Closers && !StartsAny(ind + t, Starts)
  {
    var raw := ind + t;
    assert !SkipLine(raw) && raw !in Closers by {
      IndentedEdges(ind, t);
      NotHashNotSkipped(raw);
      QuoteEndNotCloser(raw);
    }
    assert !StartsAny(raw, Starts) by {
      if ind == [] {
        assert raw == t;
      } else {
        assert IsSpace(raw[0]) by {
          assert raw[0] == ind[0];
        }
        if StartsAny(raw, Starts) {
          OpenerStartsWithLetter(raw);
          assert false;
        }
      }
    }
    assert LStrip(raw) == t by {
      LStripSpaces(ind, t);
      LStripKeeps(t);
    }
  }

  /** A type line `v "p"` starts with a letter that is neither whitespace nor `#`, and ends in a quote. */
  lemma VarLineEdges(v: string, p: string)
    requires v in VarTypes
    ensures var t := v + " " + Quoted(p); t != [] && t[0] != '#' && !IsSpace(t[0]) && t[|t| - 1] == '"'
  {
    var t := v + " " + Quoted(p);
    assert t[0] == v[0];
  }

  /** Indenting a line that starts with neither whitespace nor `#` keeps it from starting with `#`. */
  lemma IndentedEdges(ind: string, t: string)
    requires forall i :: 0 <= i < |ind| ==> IsSpace(ind[i])
    requires t != [] && t[0] != '#' && t[|t| - 1] == '"'
    ensures ind + t != [] && (ind + t)[0] != '#' && (ind + t)[|ind + t| - 1] == '"'
  {
    if ind != [] {
      assert (ind + t)[0] == ind[0] && IsSpace(ind[0]);
    }
  }

  lemma NotHashNotSkipped(line: string)
    requires line != [] && line[0] != '#'
    ensures !SkipLine(line)
  {
    assert line[..1][0] == line[0];
  }

  lemma QuoteEndNotCloser(line: string)
    requires line != [] && line[|line| - 1] == '"'
    ensures line !in Closers
  {
    assert Closers[0][6] == 'u' && Closers[1][8] == 'e' && Closers[2][4] == 'f';
  }

  /** A line that no earlier branch of `parse_line` takes is handled as its left-stripped text. */
  lemma IndentedContent(s: ParserState, ind: string, t: string)
    requires LStrip(ind + t) == t && LStrip(t) == t && !SkipLine(ind + t) && ind + t !in Closers
    requires !StartsWith(t, "prompt") && !StartsAny(ind + t, Starts) && !StartsAny(t, Starts) && t != "help"
    ensures Interpret(s, ind + t) == Content(s, t)
  {
    assert !TestStart(s.mode.Some? && s.mode.value != "", ind + t);
  }

  /**
   * `config N` followed by an indented `v "p"` leaves `config` as the mode and `N` as the
   * current config, holding exactly the type `v` and the prompt `p`.
   */
  lemma ConfigThenTypeLine(s: ParserState, arch: string, n: string, v: string, p: string)
    requires !s.helpMode && Settled("config " + n) && n !in DictAttributes
    requires v in VarTypes && '"' !in p && '$' !in p
    ensures
      var r := Run(s, arch, ["config " + n, "\t" + (v + " " + Quoted(p))]);
      && r.Success? && r.value.mode == Some("config") && r.value.history == s.history + ["config " + n, "config"]
      && Config in r.value.current && r.value.current[Config] == n
      && n in r.value.blocks.config && r.value.blocks.config[n] == map["type" := v, "prompt" := p]
      && r.value.subConfigs == s.subConfigs
  {
    var lines := ["config " + n, "\t" + (v + " " + Quoted(p))];
    var s0 := s.(mode := Some("config"), history := s.history + ["config " + n, "config"]);
    var s1 := OpenRecord(s0, Config, n);
    var s2 := WithField(WithField(s1, Config, n, "type", v), Config, n, "prompt", p);
    ConfigLineStep(s, arch, n);
    TypeLineOnFreshConfig(s0, arch, n, v, p);
    FreshConfigFields(s0, n, v, p);
    RunFirstStep(s, arch, lines, s1);
    RunFirstStep(s1, arch, lines[1..], s2);
    assert lines[1..][1..] == [];
  }

  /** `config N` outside help mode opens a fresh record `N` and enters the `config` mode. */
  lemma ConfigLineStep(s: ParserState, arch: string, n: string)
    requires !s.helpMode && Settled("config " + n)
    ensures Step(s, arch, "config " + n) ==
      Success(OpenRecord(s.(mode := Some("config"), history := s.history + ["config " + n, "config"]), Config, n))
  {
    assert "config" + " " + n == "config " + n;
    assert KindNamed("config") == Some(Config);
    StartLineOpensBlock(s, arch, "config", n);
  }

  /** An indented type line right after `config N` writes the type and the unquoted prompt. */
  lemma TypeLineOnFreshConfig(s0: ParserState, arch: string, n: string, v: string, p: string)
    requires s0.mode == Some("config") && !s0.helpMode && n !in DictAttributes
    requires v in VarTypes && '"' !in p && '$' !in p
    ensures
      var s1 := OpenRecord(s0, Config, n);
      n in s1.blocks.config
      && Step(s1, arch, "\t" + (v + " " + Quoted(p))) ==
           Success(WithField(WithField(s1, Config, n, "type", v), Config, n, "prompt", p))
  {
    var s1 := OpenRecord(s0, Config, n);
    assert CurrentRecord(s1) == Success((Config, n)) by {
      assert KindNamed("config") == Some(Config);
      assert s1.current[Config] == n;
      assert n in s1.blocks.Get(Config);
    }
    assert forall i :: 0 <= i < |"\t"| ==> IsSpace("\t"[i]);
    TypeLineStep(s1, arch, "\t", v, p);
    TypeLineSetsTypeAndPrompt(s1, Config, n, v, Quoted(p));
    StripQuoted(p);
  }

  /** The record a config type line leaves: exactly the type and the prompt, and it is current. */
  lemma FreshConfigFields(s0: ParserState, n: string, v: string, p: string)
    requires n !in DictAttributes
    ensures
      var s1 := OpenRecord(s0, Config, n);
      var s3 := WithField(WithField(s1, Config, n, "type", v), Config, n, "prompt", p);
      s3.current[Config] == n && n in s3.blocks.config
      && s3.blocks.config[n] == map["type" := v, "prompt" := p]
      && s3.mode == s0.mode && s3.history == s0.history && s3.subConfigs == s0.subConfigs
  {
    var s1 := OpenRecord(s0, Config, n);
    assert s1.blocks.config[n] == map[];
    var s2 := WithField(s1, Config, n, "type", v);
    assert s2.blocks.config[n] == map["type" := v];
  }

  /** The record a choice type line leaves: exactly the type and the prompt, and it is current. */
  lemma FreshChoiceFields(s: ParserState, v: string, p: string)
    requires p !in DictAttributes
    ensures
      var s1 := OpenRecord(s, Choice, p);
      var s3 := WithField(WithField(s1, Choice, p, "type", v), Choice, p, "prompt", p);
      s3.current[Choice] == p && p in s3.blocks.choice
      && s3.blocks.choice[p] == map["type" := v, "prompt" := p]
  {
    var s1 := OpenRecord(s, Choice, p);
    assert s1.blocks.choice[p] == map[];
    var s2 := WithField(s1, Choice, p, "type", v);
    assert s2.blocks.choice[p] == map["type" := v];
  }

  // ---------------------------------------------------------------------------------------
  // `source` lines

  /** The quoted form of a path, as a `source` line writes it. */
  function Quoted(p: string): (q: string)
    ensures |q| == |p| + 2 && q[0] == '"' && q[|q| - 1] == '"' && q[1..|q| - 1] == p
  {
    "\"" + p + "\""
  }

  /** A quoted path without whitespace is one word. */
  lemma QuotedNoSpace(p: string)
    requires NoSpace(p)
    ensures NoSpace(Quoted(p))
  {
    var q := Quoted(p);
    forall i | 0 <= i < |q|
      ensures !IsSpace(q[i])
    {
      if 0 < i < |q| - 1 {
        assert q[i] == q[1..|q| - 1][i - 1] == p[i - 1];
      }
    }
  }

  /** `source "p"` splits into the keyword and the quoted path when the path has no whitespace. */
  lemma SourceTokens(p: string)
    requires NoSpace(p)
    ensures Tokens("source " + Quoted(p)) == ["source", Quoted(p)]
  {
    var q := Quoted(p);
    assert "source " + q == "source" + (" " + q);
    assert Tokens("source" + (" " + q)) == ["source", q] by {
      QuotedNoSpace(p);
      TokensOfTwoWords("source", q);
    }
  }

  /** A space and then a quoted path without newlines is what the `source` pattern wants. */
  lemma QuotedPathAfterSpace(p: string)
    requires NoSpace(p)
    ensures QuotedAfterSpace(" " + Quoted(p))
  {
    var q := Quoted(p);
    assert LStrip(" " + q) == q by {
      LStripSpaces(" ", q);
    }
    assert q[1..] == p + "\"";
    assert Before(p + "\"", "\n") == p + "\"" by {
      assert forall i :: 0 <= i < |p| ==> p[i] != '\n';
      AbsentCharNotContained(p + "\"", "\n", '\n');
      BeforeAbsent(p + "\"", "\n");
    }
    assert (p + "\"")[|p|] == '"';
  }

  /** `source "p"` matches the `source` pattern when the path holds no newline. */
  lemma SourceDirectiveFound(p: string)
    requires NoSpace(p)
    ensures HasSourceDirective("source " + Quoted(p))
  {
    SourceAtStart(p);
  }

  /** The `source` pattern matches at the start of `source "p"`. */
  lemma SourceAtStart(p: string)
    requires NoSpace(p)
    ensures SourceAt("source " + Quoted(p), 0)
  {
    var line := "source " + Quoted(p);
    assert StartsWith(line, "source") && line[6..] == " " + Quoted(p) by {
      assert line[..6] == "source";
    }
    QuotedPathAfterSpace(p);
    SourceAtZero(line);
  }

  lemma SourceAtZero(line: string)
    requires StartsWith(line, "source") && QuotedAfterSpace(line[6..])
    ensures SourceAt(line, 0)
  {
    assert line[0..] == line;
  }

  /** A `source` line needs neither trailing-whitespace removal nor substitution. */
  lemma SourceLineSettled(p: string)
    requires '$' !in p
    ensures Settled("source " + Quoted(p))
  {
    var line := "source " + Quoted(p);
    assert line[|line| - 1] == '"';
    RStripKeeps(line);
    assert forall i :: 8 <= i < |line| - 1 ==> line[i] == p[i - 8];
  }

  /** No block keyword starts a line that starts with `so`. */
  lemma SoLineStartsNoBlock(line: string)
    requires |line| >= 2 && line[0] == 's' && line[1] == 'o'
    ensures !StartsAny(line, Starts)
  {
    assert Starts[0][0] == 'm' && Starts[1][0] == 'c' && Starts[2][0] == 'c' && Starts[3][0] == 'm' && Starts[4][0] == 'i';
    forall i | 0 <= i < |Starts|
      ensures !StartsWith(line, Starts[i])
    {
      var kw := Starts[i];
      assert |kw| <= |line| ==> line[..|kw|][0] == 's';
    }
  }

  /** A line starting with `so` is not skipped, not a closer, not a prompt and starts no block. */
  lemma SoLineNotStructural(line: string)
    requires |line| >= 2 && line[0] == 's' && line[1] == 'o'
    ensures !SkipLine(line) && line !in Closers && !StartsWith(line, "prompt")
    ensures !StartsAny(line, Starts) && line != "help"
  {
    assert !SkipLine(line) by {
      assert line[..1][0] == 's';
    }
    assert line !in Closers by {
      assert Closers[0][0] == 'e' && Closers[1][0] == 'e' && Closers[2][0] == 'e';
    }
    assert !StartsWith(line, "prompt") by {
      assert |line| >= 6 ==> line[..6][0] == 's';
    }
    assert line != "help" by {
      assert "help"[0] == 'h';
    }
    SoLineStartsNoBlock(line);
  }

  /** A `source` line is not skipped, structural, a variable line, or rewritten. */
  lemma SourceLineIsContent(s: ParserState, arch: string, p: string)
    requires '$' !in p
    ensures Step(s, arch, "source " + Quoted(p)) == Content(s, "source " + Quoted(p))
  {
    var line := "source " + Quoted(p);
    SourceLineSettled(p);
    SettledUnchanged(line, arch);
    assert line[0] == 's' && line[1] == 'o';
    SoLineNotStructural(line);
    assert LStrip(line) == line by {
      LStripKeeps(line);
    }
    assert !TestStart(s.mode.Some? && s.mode.value != "", line);
  }

  /** No type keyword, bare or after `def_`, starts a `source` line. */
  lemma SourceLineNotVar(p: string)
    ensures !TestVar("source " + Quoted(p))
  {
    var line := "source " + Quoted(p);
    assert line[0] == 's' && line[1] == 'o';
    forall i | 0 <= i < |VarTypes|
      ensures !StartsKeyword(line, VarTypes[i]) && !StartsKeyword(line, "def_" + VarTypes[i])
    {
      var v := VarTypes[i];
      var d := "def_" + v;
      assert d[0] == 'd' && (v[0] != 's' || v[1] != 'o');
      assert !StartsWith(line, d) by {
        assert |d| <= |line| ==> line[..|d|][0] != d[0];
      }
      assert !StartsWith(line, v) by {
        assert |v| <= |line| ==> line[..|v|][0] == 's' && line[..|v|][1] == 'o';
      }
    }
  }

  /**
   * Outside help mode, `source "p"` records a child parser for `p` with the default root and
   * architecture, unless `p` ends in `.include`, which is skipped.
   */
  lemma SourceLineRecordsChild(s: ParserState, arch: string, p: string)
    requires !s.helpMode && NoSpace(p) && '"' !in p && '$' !in p
    ensures Step(s, arch, "source " + Quoted(p)) ==
      if EndsWith(p, ".include") then Success(s)
      else Success(s.(subConfigs := s.subConfigs[p := SubConfig(p, DefaultBasePath, DefaultArch)]))
  {
    var line := "source " + Quoted(p);
    SourceLineIsContent(s, arch, p);
    SourceLineNotVar(p);
    SourceDirectiveFound(p);
    SourceTokens(p);
    StripQuoted(p);
  }

  /**
   * In help mode a `source` line is help text: it is appended to the current record's help,
   * and no child parser is recorded.
   */
  lemma SourceInHelpAppends(s: ParserState, arch: string, p: string, k: Kind, n: string)
    requires s.helpMode && CurrentRecord(s) == Success((k, n)) && "help" in s.blocks.Get(k)[n]
    requires '$' !in p
    ensures
      var line := "source " + Quoted(p);
      Step(s, arch, line) == Success(WithField(s, k, n, "help", s.blocks.Get(k)[n]["help"] + line))
  {
    var line := "source " + Quoted(p);
    SourceLineSettled(p);
    SettledUnchanged(line, arch);
    assert line[0] == 's' && line[1] == 'o';
    SoLineNotStructural(line);
    assert LStrip(line) == line by {
      LStripKeeps(line);
    }
    SourceLineNotVar(p);
    assert HelpBody(arch, line);
    HelpLineAppends(s, arch, line, k, n);
  }

  // ---------------------------------------------------------------------------------------
  // Line preparation

  /** `substitute_vars` agrees with an unconditional `replace`: its `$` guards only save work. */
  lemma SubstituteIsReplace(line: string, arch: string)
    ensures SubstituteVars(line, arch) == ReplaceAll(line, SrcArch, arch)
  {
    if '$' !in line {
      AbsentCharNotContained(line, SrcArch, '$');
      ReplaceAbsent(line, SrcArch, arch);
    } else if !Contains(line, SrcArch) {
      ReplaceAbsent(line, SrcArch, arch);
    }
  }

  /** A comment line, and a line of nothing but whitespace, change nothing. */
  lemma CommentOrBlankSkipped(s: ParserState, arch: string, raw: string)
    requires RStrip(raw) == [] || (raw != [] && raw[0] == '#')
    ensures Step(s, arch, raw) == Success(s)
  {
    var line0 := RStrip(raw);
    if line0 == [] {
      assert SubstituteVars(line0, arch) == [];
    } else {
      assert line0[0] == '#' by {
        assert raw[..|line0|][0] == raw[0];
      }
      var line := SubstituteVars(line0, arch);
      assert line != [] && line[0] == '#' by {
        SubstituteIsReplace(line0, arch);
        ReplaceKeepsFirst(line0, SrcArch, arch);
      }
      assert line[..1] == "#";
    }
  }

  // ---------------------------------------------------------------------------------------
  // Well-formedness of the mode history

  /**
   * What every parse keeps: before the first block there is no mode, no history and no help
   * mode; afterwards the mode and every history entry start with a block keyword (either the
   * keyword itself or a whole opening line).
   */
  predicate Wellformed(s: ParserState) {
    && (s.mode.None? ==> s.history == [] && !s.helpMode)
    && (s.mode.Some? ==> StartsAny(s.mode.value, Starts))
    && (forall i :: 0 <= i < |s.history| ==> StartsAny(s.history[i], Starts))
  }

  /** `t` has the mode, history and help mode of `s`. */
  predicate SameModes(s: ParserState, t: ParserState) {
    t.mode == s.mode && t.history == s.history && t.helpMode == s.helpMode
  }

  /** A fresh parser is well formed. */
  lemma InitialWellformed()
    ensures Wellformed(Initial)
  {
  }

  /** Assigning a block opener, or popping, keeps the history well formed. */
  lemma AssignKeepsWellformed(s: ParserState, v: Option<string>)
    requires Wellformed(s) && AssignMode(s, v).Success?
    requires v.Some? && v.value != "" ==> StartsAny(v.value, Starts)
    ensures Wellformed(AssignMode(s, v).value)
  {
    var t := AssignMode(s, v).value;
    if !(v.Some? && v.value != "") {
      assert forall i :: 0 <= i < |t.history| ==> t.history[i] == s.history[i];
    }
  }

  /** The pops of `_exit_mode` keep the history well formed. */
  lemma {:induction false} PopKeepsWellformed(s: ParserState, line: string, exits: seq<string>)
    requires Wellformed(s) && PopMatching(s, line, exits).Success?
    ensures Wellformed(PopMatching(s, line, exits).value)
    decreases |exits|
  {
    if exits != [] {
      if Contains(line, exits[0]) {
        AssignKeepsWellformed(s, None);
        PopKeepsWellformed(AssignMode(s, None).value, line, exits[1..]);
      } else {
        PopKeepsWellformed(s, line, exits[1..]);
      }
    }
  }

  lemma ExitKeepsWellformed(s: ParserState, line: string)
    requires Wellformed(s) && ExitModeSpec(s, line).Success?
    ensures Wellformed(ExitModeSpec(s, line).value)
  {
    PopKeepsWellformed(s, line, Closers);
  }

  /** A keyword of `Starts` starts itself. */
  lemma KeywordStartsItself(kw: string)
    requires kw in Starts
    ensures StartsAny(kw, Starts)
  {
    var i :| 0 <= i < |Starts| && Starts[i] == kw;
    assert kw[..|kw|] == kw;
    assert StartsKeyword(kw, Starts[i]);
  }

  /** `_enter_mode` on an opening line or on `help` keeps the history well formed. */
  lemma EnterKeepsWellformed(s: ParserState, line: string)
    requires Wellformed(s) && EnterModeSpec(s, line).Success?
    requires StartsAny(line, Starts) || line == "help"
    ensures Wellformed(EnterModeSpec(s, line).value)
  {
    var s1 :=
      if line == "help" then BeginHelp(s).value
      else if s.helpMode then s.(helpMode := false)
      else AssignMode(s, Some(line)).value;
    if line != "help" && !s.helpMode {
      AssignKeepsWellformed(s, Some(line));
    }
    assert Wellformed(s1);
    if ' ' in line && !s1.helpMode {
      var (kw, name) := SplitOnce(line, ' ').value;
      var k := KindNamed(kw).value;
      KeywordStartsItself(kw);
      AssignKeepsWellformed(s1, Some(kw));
    }
  }

  /** `_test_start` passes only a line whose left-stripped form opens a block or is `help`. */
  lemma TestStartShape(modeSet: bool, line: string)
    requires TestStart(modeSet, line)
    ensures StartsAny(LStrip(line), Starts) || LStrip(line) == "help"
  {
    if modeSet {
      LStripKeeps(LStrip(line));
    } else if StartsAny(line, Starts) {
      assert LStrip(line) == line by {
        OpenerStartsWithLetter(line);
        LStripKeeps(line);
      }
    }
  }

  /** A line that starts with a block keyword starts with a letter. */
  lemma OpenerStartsWithLetter(line: string)
    requires StartsAny(line, Starts)
    ensures line != [] && !IsSpace(line[0])
  {
    var i :| 0 <= i < |Starts| && StartsKeyword(line, Starts[i]);
    assert line[..|Starts[i]|][0] == line[0];
    assert Starts[0][0] == 'm' && Starts[1][0] == 'c' && Starts[2][0] == 'c' && Starts[3][0] == 'm' && Starts[4][0] == 'i';
  }

  /** The `prompt` branch changes neither the mode, the history nor help mode. */
  lemma PromptKeepsModes(s: ParserState, line: string)
    requires PromptSpec(s, line).Success?
    ensures SameModes(s, PromptSpec(s, line).value)
  {
  }

  /** Variable, help-text and `source` lines change neither the mode, the history nor help mode. */
  lemma ContentKeepsModes(s: ParserState, text: string)
    requires Content(s, text).Success?
    ensures SameModes(s, Content(s, text).value)
  {
    if TestVar(text) {
      ProcessVarKeepsModes(s, text);
    }
  }

  /** `_process_var` writes records only. */
  lemma ProcessVarKeepsModes(s: ParserState, line: string)
    requires ProcessVarSpec(s, line).Success?
    ensures SameModes(s, ProcessVarSpec(s, line).value)
  {
    var s1 := if s.mode.value == "choice" then ChoosePrompt(s, line).value else s;
    assert SameModes(s, s1);
    var (s2, rest) := if StartsWith(line, "def_") then SetDefault(s1, line).value else (s1, line);
    assert SameModes(s, s2);
    assert SameModes(s2, WriteType(s2, rest).value);
  }

  /** Every line keeps the parser well formed. */
  lemma StepKeepsWellformed(s: ParserState, arch: string, raw: string)
    requires Wellformed(s) && Step(s, arch, raw).Success?
    ensures Wellformed(Step(s, arch, raw).value)
  {
    var line := SubstituteVars(RStrip(raw), arch);
    if SkipLine(line) {
    } else if line in Closers {
      ExitKeepsWellformed(s, line);
    } else if StartsWith(LStrip(line), "prompt") {
      PromptKeepsModes(s, line);
    } else if TestStart(s.mode.Some? && s.mode.value != "", line) {
      TestStartShape(s.mode.Some? && s.mode.value != "", line);
      EnterKeepsWellformed(s, LStrip(line));
    } else {
      ContentKeepsModes(s, LStrip(line));
    }
  }

  /** A whole parse from a well-formed state, in particular from a fresh one, stays well formed. */
  lemma {:induction false} RunKeepsWellformed(s: ParserState, arch: string, lines: seq<string>)
    requires Wellformed(s) && Run(s, arch, lines).Success?
    ensures Wellformed(Run(s, arch, lines).value)
    decreases |lines|
  {
    if lines != [] {
      StepKeepsWellformed(s, arch, lines[0]);
      RunKeepsWellformed(Step(s, arch, lines[0]).value, arch, lines[1..]);
    }
  }
}
