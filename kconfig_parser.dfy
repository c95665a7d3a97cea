/**
 * `KConfig`: the parser object whose attributes the line interpreter updates in place. Each
 * method is proved against the function of `KconfigSpec` that specifies it: it fails with the
 * error the function reports, or it leaves the object in the state the function computes.
 */
module KconfigParser {
  import opened Wrappers
  import opened Errors
  import opened Text
  import opened KconfigSpec

  class KConfig {
    const filePath: string
    const basePath: string
    const arch: string

    var mode: Option<string>
    var history: seq<string>
    var helpMode: bool
    var blocks: Blocks
    var current: map<Kind, string>
    var subConfigs: map<string, SubConfig>

    function State(): ParserState
      reads this
    {
      ParserState(mode, history, helpMode, blocks, current, subConfigs)
    }

    /** The file `parse_config` opens: the root, a slash, the file path. */
    function ConfigPath(): (p: string)
      ensures StartsWith(p, basePath + "/") && EndsWith(p, filePath)
    {
      basePath + "/" + filePath
    }

    /**
     * `__init__` up to the file read: a non-empty root or architecture overrides the class
     * default; the tables, the history and the child list start empty and help mode is off.
     */
    constructor (filePath: string, basePath: Option<string>, arch: Option<string>)
      ensures this.filePath == filePath
      ensures this.basePath == if basePath.Some? && basePath.value != "" then basePath.value else DefaultBasePath
      ensures this.arch == if arch.Some? && arch.value != "" then arch.value else DefaultArch
      ensures State() == Initial
    {
      this.filePath := filePath;
      this.basePath := if basePath.Some? && basePath.value != "" then basePath.value else DefaultBasePath;
      this.arch := if arch.Some? && arch.value != "" then arch.value else DefaultArch;
      mode := None;
      history := [];
      helpMode := false;
      blocks := NoBlocks;
      current := map[];
      subConfigs := map[];
    }

    /** `self.mode = v` through the `__setattr__` hook. */
    method SetMode(v: Option<string>) returns (r: Outcome<Error>)
      modifies this
      ensures Follows(r, AssignMode(old(State()), v), State())
    {
      if v.Some? && v.value != "" {
        history := history + [v.value];
        mode := v;
      } else {
        if history == [] {
          return Fail(EmptyModeHistory);
        }
        var last := history[|history| - 1];
        history := history[..|history| - 1];
        mode := Some(last);
      }
      return Pass;
    }

    /** Stores a fresh empty record under `name` unless `hasattr` finds it, and selects it. */
    method SelectRecord(k: Kind, name: string)
      modifies this
      ensures State() == OpenRecord(old(State()), k, name)
    {
      if name !in DictAttributes {
        blocks := blocks.Set(k, blocks.Get(k)[name := map[]]);
      }
      current := current[k := name];
    }

    /** `_exit_mode`. */
    method ExitMode(line: string) returns (r: Outcome<Error>)
      modifies this
      ensures Follows(r, ExitModeSpec(old(State()), line), State())
    {
      for i := 0 to |Closers|
        invariant PopMatching(old(State()), line, Closers) == PopMatching(State(), line, Closers[i..])
      {
        assert Closers[i..][1..] == Closers[i + 1..];
        if Contains(line, Closers[i]) {
          if mode.None? {
            return Fail(MissingAttribute("mode"));
          }
          r := SetMode(None);
          if r.Fail? {
            return;
          }
        }
      }
      if helpMode {
        helpMode := false;
        var name := CurrentName(State());
        if name.Failure? {
          return Fail(name.error);
        }
      }
      return Pass;
    }

    /** `_enter_mode`, on a left-stripped line. */
    method EnterMode(line: string) returns (r: Outcome<Error>)
      modifies this
      ensures Follows(r, EnterModeSpec(old(State()), line), State())
    {
      if line == "help" {
        var record := CurrentRecord(State());
        if record.Failure? {
          return Fail(record.error);
        }
        var (k, name) := record.value;
        if "help" !in blocks.Get(k)[name] {
          blocks := blocks.Set(k, blocks.Get(k)[name := blocks.Get(k)[name]["help" := ""]]);
        }
        helpMode := true;
      } else if helpMode {
        var name := CurrentName(State());
        if name.Failure? {
          return Fail(name.error);
        }
        helpMode := false;
      } else {
        r := SetMode(Some(line));
        if r.Fail? {
          return;
        }
      }
      if ' ' in line && !helpMode {
        var (kw, name) := SplitOnce(line, ' ').value;
        r := SetMode(Some(kw));
        if r.Fail? {
          return;
        }
        var k := KindNamed(kw);
        if k.None? {
          return Fail(MissingAttribute(kw));
        }
        SelectRecord(k.value, name);
      }
      return Pass;
    }

    /** `_process_var`, on a left-stripped variable line. */
    method ProcessVar(line: string) returns (r: Outcome<Error>)
      modifies this
      ensures Follows(r, ProcessVarSpec(old(State()), line), State())
    {
      if mode.None? {
        return Fail(MissingAttribute("mode"));
      }
      if mode.value !in VarModes {
        return Fail(VariableOutsideBlock(line));
      }
      if mode.value == "choice" {
        var pieces := SplitOnce(line, '"');
        if pieces.None? {
          return Fail(MissingSplitPiece(line));
        }
        SelectRecord(Choice, Before(pieces.value.1, "\""));
      }
      var rest := line;
      if StartsWith(line, "def_") {
        var name := CurrentName(State());
        if name.Failure? {
          return Fail(name.error);
        }
        var record := CurrentRecord(State());
        if record.Failure? {
          return Fail(record.error);
        }
        SetField(record.value.0, record.value.1, "default", Before(line[4..], "def_"));
        rest := Before(line, "def_");
      }
      var record := CurrentRecord(State());
      if record.Failure? {
        return Fail(record.error);
      }
      var (k, name) := record.value;
      var pieces := SplitOnce(rest, ' ');
      if pieces.Some? {
        SetField(k, name, "type", pieces.value.0);
        SetField(k, name, "prompt", Strip(pieces.value.1, '"'));
      } else {
        SetField(k, name, "type", rest);
      }
      return Pass;
    }

    /** Writes one field of an existing record. */
    method SetField(k: Kind, name: string, field: string, value: string)
      requires name in blocks.Get(k)
      modifies this
      ensures State() == WithField(old(State()), k, name, field, value)
    {
      blocks := blocks.Set(k, blocks.Get(k)[name := blocks.Get(k)[name][field := value]]);
    }

    /** `parse_line`. */
    method ParseLine(raw: string) returns (r: Outcome<Error>)
      modifies this
      ensures Follows(r, Step(old(State()), arch, raw), State())
    {
      var line := SubstituteVars(RStrip(raw), arch);
      if SkipLine(line) {
        return Pass;
      }
      if line in Closers {
        r := ExitMode(line);
        return;
      }
      if StartsWith(LStrip(line), "prompt") {
        r := Prompt(line);
        return;
      }
      if TestStart(mode.Some? && mode.value != "", line) {
        r := EnterMode(LStrip(line));
        return;
      }
      var text := LStrip(line);
      if TestVar(text) {
        r := ProcessVar(text);
        return;
      }
      if helpMode {
        r := AppendHelp(text);
        return;
      }
      if HasSourceDirective(text) {
        r := Source(text);
        return;
      }
      return Pass;
    }

    /** The `prompt` branch of `parse_line`. */
    method Prompt(line: string) returns (r: Outcome<Error>)
      modifies this
      ensures Follows(r, PromptSpec(old(State()), line), State())
    {
      var pieces := SplitOnce(line, ' ');
      if pieces.None? {
        return Fail(MissingSplitPiece(line));
      }
      var k := ModeKind(State());
      if k.Failure? {
        return Fail(k.error);
      }
      SelectRecord(k.value, pieces.value.1);
      return Pass;
    }

    /** The help-text branch of `parse_line`. */
    method AppendHelp(text: string) returns (r: Outcome<Error>)
      modifies this
      ensures Follows(r, AppendHelpSpec(old(State()), text), State())
    {
      var record := CurrentRecord(State());
      if record.Failure? {
        return Fail(record.error);
      }
      var (k, name) := record.value;
      if "help" !in blocks.Get(k)[name] {
        return Fail(MissingKey("help"));
      }
      SetField(k, name, "help", blocks.Get(k)[name]["help"] + text);
      return Pass;
    }

    /** The `source` branch of `parse_line`: records the child parser, without running it. */
    method Source(text: string) returns (r: Outcome<Error>)
      modifies this
      ensures Follows(r, SourceSpec(old(State()), text), State())
    {
      var words := Tokens(text);
      if |words| < 2 {
        return Fail(MissingSplitPiece(text));
      }
      var path := Strip(words[1], '"');
      if !EndsWith(path, ".include") {
        AddSubConfig(path);
      }
      return Pass;
    }

    /** Records a child parser for `path`, with the class defaults for root and architecture. */
    method AddSubConfig(path: string)
      modifies this
      ensures State() == old(State()).(subConfigs := old(subConfigs)[path := SubConfig(path, DefaultBasePath, DefaultArch)])
    {
      subConfigs := subConfigs[path := SubConfig(path, DefaultBasePath, DefaultArch)];
    }

    /** `parse_config` over the file's lines, in order; the first failure ends it. */
    method ParseConfig(lines: seq<string>) returns (r: Outcome<Error>)
      modifies this
      ensures Follows(r, Run(old(State()), arch, lines), State())
    {
      for i := 0 to |lines|
        invariant Run(old(State()), arch, lines) == Run(State(), arch, lines[i..])
      {
        assert lines[i..][1..] == lines[i + 1..];
        r := ParseLine(lines[i]);
        if r.Fail? {
          return;
        }
      }
      return Pass;
    }
  }
}
