/**
 * The Kconfig line interpreter as pure functions over an explicit parser state. Each Python
 * method of `KConfig` that reads or changes attributes becomes a function from the state
 * before to a `Result` holding the state after: a Python exception is a `Failure` whose
 * error says which one, and it ends the parse (the exception escapes the constructor).
 */
module KconfigSpec {
  import opened Wrappers
  import opened Errors
  import opened Text

  /** The keywords that open a block, in the order they are tried. */
  const Starts: seq<string> := ["menu", "choice", "config", "menuconfig", "if"]

  /** The keywords that close one. */
  const Closers: seq<string> := ["endmenu", "endchoice", "endif"]

  /** The keywords of a variable (type) line, bare or after `def_`. */
  const VarTypes: seq<string> := ["bool", "tristate", "int", "string"]

  /** The modes in which a variable line is accepted. */
  const VarModes: seq<string> := ["config", "menuconfig", "choice"]

  /** Class-level defaults: the architecture and the root of the kernel source tree. */
  const DefaultArch: string := "x86"
  const DefaultBasePath: string := "/usr/src/linux"

  /** The one variable `substitute_vars` knows. */
  const SrcArch: string := "$(SRCARCH)"

  /**
   * The attribute names a Python `dict` object has, as `dir({})` lists them on CPython 3.12
   * (`__getstate__` exists from 3.11 on; other versions differ slightly).
   * `hasattr(some_dict, name)` is true for exactly these, so a record under one of these
   * names is never (re)initialised.
   */
  const DictAttributes: set<string> := {
    "__class__", "__class_getitem__", "__contains__", "__delattr__", "__delitem__", "__dir__",
    "__doc__", "__eq__", "__format__", "__ge__", "__getattribute__", "__getitem__",
    "__getstate__", "__gt__", "__hash__", "__init__", "__init_subclass__", "__ior__", "__iter__",
    "__le__", "__len__", "__lt__", "__ne__", "__new__", "__or__", "__reduce__", "__reduce_ex__",
    "__repr__", "__reversed__", "__ror__", "__setattr__", "__setitem__", "__sizeof__", "__str__",
    "__subclasshook__", "clear", "copy", "fromkeys", "get", "items", "keys", "pop", "popitem",
    "setdefault", "update", "values"
  }

  /** The five block kinds; each has its own table of records and its own `current_` name. */
  datatype Kind = Menu | Choice | Config | MenuConfig | If

  function KindName(k: Kind): string {
    match k
    case Menu => "menu"
    case Choice => "choice"
    case Config => "config"
    case MenuConfig => "menuconfig"
    case If => "if"
  }

  /** `getattr(self, name)` when it yields one of the five tables. */
  function KindNamed(name: string): (r: Option<Kind>)
    ensures r.Some? <==> name in Starts
    ensures r.Some? ==> KindName(r.value) == name
  {
    if name == "menu" then Some(Menu)
    else if name == "choice" then Some(Choice)
    else if name == "config" then Some(Config)
    else if name == "menuconfig" then Some(MenuConfig)
    else if name == "if" then Some(If)
    else None
  }

  lemma KindNamedInverts(k: Kind)
    ensures KindNamed(KindName(k)) == Some(k)
  {
  }

  /** A record: the fields (`type`, `prompt`, `default`, `help`) a block has collected. */
  type Fields = map<string, string>

  /** One kind's table: record name to record. */
  type Records = map<string, Fields>

  datatype Blocks = Blocks(menu: Records, choice: Records, config: Records, menuconfig: Records, ifs: Records) {
    function Get(k: Kind): Records {
      match k
      case Menu => menu
      case Choice => choice
      case Config => config
      case MenuConfig => menuconfig
      case If => ifs
    }

    function Set(k: Kind, r: Records): (b: Blocks)
      ensures b.Get(k) == r
      ensures forall j :: j != k ==> b.Get(j) == Get(j)
    {
      match k
      case Menu => this.(menu := r)
      case Choice => this.(choice := r)
      case Config => this.(config := r)
      case MenuConfig => this.(menuconfig := r)
      case If => this.(ifs := r)
    }
  }

  const NoBlocks: Blocks := Blocks(map[], map[], map[], map[], map[])

  /** A `source`d file: a child parser with its own path, root and architecture. */
  datatype SubConfig = SubConfig(filePath: string, basePath: string, arch: string)

  /**
   * The attributes the interpreter reads and writes. `mode` is `None` while the attribute
   * has never been assigned; `current` holds the `current_<kind>` attributes that exist.
   */
  datatype ParserState = ParserState(
    mode: Option<string>,
    history: seq<string>,
    helpMode: bool,
    blocks: Blocks,
    current: map<Kind, string>,
    subConfigs: map<string, SubConfig>)

  const Initial: ParserState := ParserState(None, [], false, NoBlocks, map[], map[])

  /** `substitute_vars`: `$(SRCARCH)` becomes the architecture; lines without `$` pass untouched. */
  function SubstituteVars(line: string, arch: string): string {
    if '$' !in line then line
    else if Contains(line, SrcArch) then ReplaceAll(line, SrcArch, arch)
    else line
  }

  /** `_skip_line`: comments and empty lines. */
  predicate SkipLine(line: string) {
    StartsWith(line, "#") || line == ""
  }

  /**
   * `re.search(r'^kw( |$)', line)`: the keyword, then a space, the end, or a final newline
   * (Python's `$` also matches just before a newline that ends the string).
   */
  predicate StartsKeyword(line: string, kw: string) {
    StartsWith(line, kw)
    && (|line| == |kw| || line[|kw|] == ' ' || (line[|kw|] == '\n' && |line| == |kw| + 1))
  }

  predicate StartsAny(line: string, kws: seq<string>) {
    exists i :: 0 <= i < |kws| && StartsKeyword(line, kws[i])
  }

  /** `_test_start`: once a mode is set the line is left-stripped before the keyword test. */
  predicate TestStart(modeSet: bool, line: string) {
    var l := if modeSet then LStrip(line) else line;
    StartsAny(l, Starts) || LStrip(l) == "help"
  }

  /** `_test_var`: a type keyword, bare or prefixed with `def_`. */
  predicate TestVar(line: string) {
    exists i :: 0 <= i < |VarTypes| && (StartsKeyword(line, VarTypes[i]) || StartsKeyword(line, "def_" + VarTypes[i]))
  }

  /** `re.search(r'source\s+"(.*)"', line)` anchored at index `i`. */
  predicate SourceAt(line: string, i: int) {
    0 <= i <= |line| && StartsWith(line[i..], "source") && QuotedAfterSpace(line[i + 6..])
  }

  /** At least one whitespace character, a double quote, and a second one before any newline. */
  predicate QuotedAfterSpace(t: string) {
    t != [] && IsSpace(t[0])
    && var u := LStrip(t);
       u != [] && u[0] == '"' && '"' in Before(u[1..], "\n")
  }

  /** The line holds a `source "…"` directive somewhere. */
  predicate HasSourceDirective(line: string) {
    exists i :: 0 <= i < |line| && SourceAt(line, i)
  }

  /**
   * Assigning `mode` through the `__setattr__` hook: a non-empty value is pushed onto the
   * history and becomes the mode; an empty one pops the last entry, which becomes the mode.
   */
  function AssignMode(s: ParserState, v: Option<string>): (r: Result<ParserState, Error>)
    ensures r.Success? ==> r.value.helpMode == s.helpMode && r.value.blocks == s.blocks
    ensures r.Success? ==> r.value.current == s.current && r.value.subConfigs == s.subConfigs
    ensures r.Success? ==> r.value.mode.Some?
  {
    if v.Some? && v.value != "" then Success(s.(mode := v, history := s.history + [v.value]))
    else if s.history == [] then Failure(EmptyModeHistory)
    else Success(s.(mode := Some(s.history[|s.history| - 1]), history := s.history[..|s.history| - 1]))
  }

  /** `getattr(self, self.mode)`: the table of the current mode. */
  function ModeKind(s: ParserState): (r: Result<Kind, Error>)
    ensures r.Success? <==> s.mode.Some? && s.mode.value in Starts
    ensures r.Success? ==> KindName(r.value) == s.mode.value
  {
    match s.mode
    case None => Failure(MissingAttribute("mode"))
    case Some(m) =>
      match KindNamed(m)
      case None => Failure(MissingAttribute(m))
      case Some(k) => Success(k)
  }

  /** `getattr(self, 'current_' + self.mode)`. */
  function CurrentName(s: ParserState): (r: Result<string, Error>)
    ensures r.Success? <==> s.mode.Some? && s.mode.value in Starts && KindNamed(s.mode.value).value in s.current
  {
    match s.mode
    case None => Failure(MissingAttribute("mode"))
    case Some(m) =>
      match KindNamed(m)
      case Some(k) => if k in s.current then Success(s.current[k]) else Failure(MissingAttribute("current_" + m))
      case None => Failure(MissingAttribute("current_" + m))
  }

  /** `getattr(self, self.mode)[getattr(self, 'current_' + self.mode)]`: the record being filled. */
  function CurrentRecord(s: ParserState): (r: Result<(Kind, string), Error>)
    ensures r.Success? ==> s.mode == Some(KindName(r.value.0))
    ensures r.Success? ==> r.value.0 in s.current && s.current[r.value.0] == r.value.1
    ensures r.Success? ==> r.value.1 in s.blocks.Get(r.value.0)
  {
    var k :- ModeKind(s);
    var name :- CurrentName(s);
    if name !in s.blocks.Get(k) then Failure(MissingKey(name)) else Success((k, name))
  }

  /** Writes one field of the record `name` of kind `k`. */
  function WithField(s: ParserState, k: Kind, name: string, field: string, value: string): ParserState
    requires name in s.blocks.Get(k)
  {
    var records := s.blocks.Get(k);
    s.(blocks := s.blocks.Set(k, records[name := records[name][field := value]]))
  }

  /**
   * Makes `name` the current record of kind `k`. The record is set to a fresh empty one
   * unless `hasattr` finds `name` on the table, which it does only for dictionary attribute
   * names (it does not look at the keys), so an existing record is reset.
   */
  function OpenRecord(s: ParserState, k: Kind, name: string): ParserState {
    var records := s.blocks.Get(k);
    var table := if name in DictAttributes then records else records[name := map[]];
    s.(blocks := s.blocks.Set(k, table), current := s.current[k := name])
  }

  /** The `help` branch of `_enter_mode`: help mode on, and an empty `help` field if none yet. */
  function BeginHelp(s: ParserState): Result<ParserState, Error> {
    var (k, name) :- CurrentRecord(s);
    var fields := s.blocks.Get(k)[name];
    var s' := if "help" in fields then s else WithField(s, k, name, "help", "");
    Success(s'.(helpMode := true))
  }

  /**
   * `_enter_mode` on a left-stripped line: `help` starts help text; a start line while in help
   * mode only leaves help mode; any other start line becomes the mode. Then, outside help
   * mode, a line with a space is split into keyword and name: the keyword becomes the mode
   * too and the name becomes the current record of that kind.
   */
  function EnterModeSpec(s: ParserState, line: string): Result<ParserState, Error> {
    var s1 :-
      if line == "help" then BeginHelp(s)
      else if s.helpMode then
        var _ :- CurrentName(s);
        Success(s.(helpMode := false))
      else AssignMode(s, Some(line));
    if ' ' in line && !s1.helpMode then
      var (kw, name) := SplitOnce(line, ' ').value;
      var s2 :- AssignMode(s1, Some(kw));
      match KindNamed(kw)
      case None => Failure(MissingAttribute(kw))
      case Some(k) => Success(OpenRecord(s2, k, name))
    else Success(s1)
  }

  /** The loop of `_exit_mode`: one pop for every closer the line contains. */
  function PopMatching(s: ParserState, line: string, exits: seq<string>): Result<ParserState, Error>
    decreases |exits|
  {
    if exits == [] then Success(s)
    else if Contains(line, exits[0]) then
      if s.mode.None? then Failure(MissingAttribute("mode"))
      else
        var s' :- AssignMode(s, None);
        PopMatching(s', line, exits[1..])
    else PopMatching(s, line, exits[1..])
  }

  /** `_exit_mode`: the pops, then help mode ends, naming the current record of the restored mode. */
  function ExitModeSpec(s: ParserState, line: string): Result<ParserState, Error> {
    var s1 :- PopMatching(s, line, Closers);
    if s1.helpMode then
      var s2 := s1.(helpMode := false);
      var _ :- CurrentName(s2);
      Success(s2)
    else Success(s1)
  }

  /** The `prompt` branch of `parse_line`: the text after the first space names the current record. */
  function PromptSpec(s: ParserState, line: string): Result<ParserState, Error> {
    match SplitOnce(line, ' ')
    case None => Failure(MissingSplitPiece(line))
    case Some((_, name)) =>
      var k :- ModeKind(s);
      Success(OpenRecord(s, k, name))
  }

  /** In `choice` mode a variable line's first quoted text names the current choice. */
  function ChoosePrompt(s: ParserState, line: string): Result<ParserState, Error> {
    match SplitOnce(line, '"')
    case None => Failure(MissingSplitPiece(line))
    case Some((_, after)) => Success(OpenRecord(s, Choice, Before(after, "\"")))
  }

  /** A `def_` line: everything after the first `def_` up to the next is the default. */
  function SetDefault(s: ParserState, line: string): Result<(ParserState, string), Error>
    requires StartsWith(line, "def_")
  {
    var _ :- CurrentName(s);
    var (k, name) :- CurrentRecord(s);
    Success((WithField(s, k, name, "default", Before(line[4..], "def_")), Before(line, "def_")))
  }

  /**
   * `_process_var`: only in `config`, `menuconfig` or `choice` mode. The first word becomes
   * `type` and the rest, without surrounding double quotes, `prompt`; a `def_` line records
   * its default and leaves an empty type.
   */
  function ProcessVarSpec(s: ParserState, line: string): Result<ParserState, Error> {
    if s.mode.None? then Failure(MissingAttribute("mode"))
    else if s.mode.value !in VarModes then Failure(VariableOutsideBlock(line))
    else
      var s1 :- if s.mode.value == "choice" then ChoosePrompt(s, line) else Success(s);
      var (s2, rest) :- if StartsWith(line, "def_") then SetDefault(s1, line) else Success((s1, line));
      WriteType(s2, rest)
  }

  /** The end of `_process_var`: the first word is the type, the rest unquoted is the prompt. */
  function WriteType(s: ParserState, rest: string): Result<ParserState, Error> {
    var (k, name) :- CurrentRecord(s);
    match SplitOnce(rest, ' ')
    case Some((var_, value)) =>
      var s1 := WithField(s, k, name, "type", var_);
      Success(WithField(s1, k, name, "prompt", Strip(value, '"')))
    case None => Success(WithField(s, k, name, "type", rest))
  }

  /** A help line: appended, without separator, to the current record's `help` field. */
  function AppendHelpSpec(s: ParserState, text: string): Result<ParserState, Error> {
    var (k, name) :- CurrentRecord(s);
    var fields := s.blocks.Get(k)[name];
    if "help" !in fields then Failure(MissingKey("help"))
    else Success(WithField(s, k, name, "help", fields["help"] + text))
  }

  /**
   * A `source` line: the second whitespace-separated word without its double quotes is the
   * path. `.include` files are skipped; any other path gets a child parser, which starts from
   * the class defaults for the root and the architecture.
   */
  function SourceSpec(s: ParserState, line: string): Result<ParserState, Error> {
    var words := Tokens(line);
    if |words| < 2 then Failure(MissingSplitPiece(line))
    else
      var path := Strip(words[1], '"');
      if EndsWith(path, ".include") then Success(s)
      else Success(s.(subConfigs := s.subConfigs[path := SubConfig(path, DefaultBasePath, DefaultArch)]))
  }

  /** `parse_line`: trailing whitespace goes and variables are substituted first. */
  function Step(s: ParserState, arch: string, raw: string): Result<ParserState, Error> {
    Interpret(s, SubstituteVars(RStrip(raw), arch))
  }

  /** The order in which the line kinds are tried. */
  function Interpret(s: ParserState, line: string): Result<ParserState, Error> {
    if SkipLine(line) then Success(s)
    else if line in Closers then ExitModeSpec(s, line)
    else if StartsWith(LStrip(line), "prompt") then PromptSpec(s, line)
    else if TestStart(s.mode.Some? && s.mode.value != "", line) then EnterModeSpec(s, LStrip(line))
    else Content(s, LStrip(line))
  }

  /** A left-stripped line that is not structural: a variable line, help text, a `source` line, or nothing known. */
  function Content(s: ParserState, text: string): Result<ParserState, Error> {
    if TestVar(text) then ProcessVarSpec(s, text)
    else if s.helpMode then AppendHelpSpec(s, text)
    else if HasSourceDirective(text) then SourceSpec(s, text)
    else Success(s)
  }

  /** `parse_config` over the lines of a file: the first exception ends the parse. */
  function Run(s: ParserState, arch: string, lines: seq<string>): Result<ParserState, Error>
    decreases |lines|
  {
    if lines == [] then Success(s)
    else
      var s' :- Step(s, arch, lines[0]);
      Run(s', arch, lines[1..])
  }
}
