# kernel_config in Dafny

A model of `kernel_config.py` from custom-kernel, a tool that reads the Linux kernel's
Kconfig description files and writes kernel `.config` overrides. The model has three parts.

- **`LinuxKernelConfigParameter`** is one `.config` record. `parameter.dfy` (module `Parameter`) covers:
  - name and value validation with the character classes exactly as written;
  - name normalisation (upper-case, then a `CONFIG_` prefix if missing);
  - construction from keyword arguments, both as the pure function `Construct` and as the class `ConfigParameter`, whose setters go through the validating `__setattr__` hook;
  - rendering to `NAME=value`, `NAME="value"` or `# NAME is not set`, with an optional description comment.
- **`KernelDict`** is the override resolver. `resolver.dfy` (module `Resolver`) covers:
  - classifying each YAML override as null, scalar, or a mapping with optional `if` conditions;
  - evaluating the `is`/`in` conditions against the fact table `config_values`;
  - storing records with last-write-wins in insertion order, and rendering the whole dictionary;
  - routing the configuration file's keys: `templates` names template files, every other key is a fact;
  - the `.yaml` suffix rule for template names.

  The class `KernelDict` updates its fields in place. Each of its methods is proved against a pure function of the same module.
- **`KConfig`** is the line-driven Kconfig state machine.
  - `kconfig_spec.dfy` (module `KconfigSpec`) states each Python method as a function from the parser state before to a `Result` holding the state after. A Python exception is a `Failure` naming its cause, and it ends the parse.
  - `kconfig_parser.dfy` (module `KconfigParser`) is the class `KConfig` with the attributes the code updates in place. Every method is proved to follow its function: `Follows(r, Spec(old state), new state)`.
  - `kconfig_properties.dfy` (module `KconfigProperties`) proves the behaviour of whole lines and line sequences on those functions:
    - the mode-history stack discipline;
    - opening and closing blocks;
    - help-text accumulation;
    - type, `def_` and choice lines;
    - `source` lines;
    - an invariant on the mode stack that every parse preserves.

Shared modules:
- `wrappers.dfy` holds `Option`, `Result` and `Outcome`, plus the predicate `Follows`. It also holds the module `Errors`, with one constructor per Python exception the code can raise.
- `text.dfy` (module `Text`) holds the Python string built-ins the code uses: `isspace`, `strip`/`lstrip`/`rstrip`, `startswith`/`endswith`, `in`, `replace`, `split(sep, 1)`, `split()` and `upper`.

Behaviours of the code worth knowing:
- A record whose name or value fails validation raises. The exception is not caught, so it ends loading.
- A missing fact key in an `if` condition raises instead of counting as false.
- The value character class `[a-zA-Z0-9/_.,-=\(\) ]` contains the range `,-=`, so `bad;value` is accepted.
- The name character class `[^a-zA0-Z_0-9]` admits `=` and `:;<>?@`.
- A null override builds a record that has no `value` attribute. Rendering it raises AttributeError rather than printing `# CONFIG_X is not set`. Overriding such a record later raises the same AttributeError, because the duplicate-key warning renders the held record (kernel_config.py:394-395).
- The mode is a history list, not a stack of scope frames:
  - An opener line with a name pushes both the whole line and the keyword.
  - A closer pops one entry, whatever its kind, and makes the popped entry the new mode. So after `config A` … `endif` the mode is `config` again, with `config A` left on the history.
  - There is no cycle detection for `source`.
- Help lines are left-stripped and joined with no separator.
- Help mode is checked before the `source` test. A `source` line inside help text is therefore appended to the help.
- A child parser for a `source` line gets the class defaults for root and architecture (`/usr/src/linux`, `x86`), not the parent's. A second `source` of the same path silently replaces the first.
- Re-opening a name resets its record to `{}`. `hasattr` on a dict looks at attributes, not keys, so only dictionary attribute names such as `items` or `keys` escape the reset. `KconfigSpec.DictAttributes` lists the names `dir({})` gives on CPython 3.12; `__getstate__` is among them from 3.11 on.

## Model

| member | source | states |
|---|---|---|
| Parameter.NormaliseName | kernel_config.py:484-494 | the stored name always starts with `CONFIG_`, and a name that passed validation still does |
| Parameter.NormaliseIdempotent | kernel_config.py:484-494 | normalising a normalised name changes nothing |
| Parameter.NormaliseAbsorbsPrefix | kernel_config.py:488-492 | a `config_` prefix in any letter case is absorbed: `prefix + rest` and `rest` give the same key |
| Parameter.NormaliseIgnoresCase | kernel_config.py:488 | names equal up to letter case give the same key |
| Parameter.NormaliseExample | kernel_config.py:484-494 | `config_foo` and `CONFIG_FOO` both become `CONFIG_FOO` |
| Parameter.ValueExamples | kernel_config.py:513-524 | `y`, `-12`, `ok_value-1`, `-x`, `bad;value` and a value with one trailing newline are accepted; `a"b`, `x!` and a leading newline are rejected |
| Parameter.Construct | kernel_config.py:450-462 | construction succeeds iff the name is valid and any given value is valid; a bad name is reported before a bad value; on success the name is normalised, the value kept, `defined` is the argument or `True`, the description kept |
| Parameter.ConfigParameter.SetName | kernel_config.py:474-494 | assigning `name` validates the raw name first; a valid name is stored normalised, an invalid one raises and leaves the object unchanged |
| Parameter.ConfigParameter.SetValue | kernel_config.py:496-507 | assigning a value validates it first; a valid value is stored and sets `defined` to true, an invalid one raises and leaves the object unchanged |
| Parameter.ConfigParameter.SetDefined | kernel_config.py:478-482 | `defined` is assigned as given, nothing else changes |
| Parameter.ConfigParameter.SetDescription | kernel_config.py:478-482 | `description` is assigned as given, nothing else changes |
| Parameter.ConfigParameter.Create | kernel_config.py:456-462 | the component loop fails exactly when `Construct` fails, with the same error, and otherwise yields a fresh object equal to `Construct`'s record |
| Parameter.Render | kernel_config.py:526-530 | rendering fails (AttributeError on `value`) exactly when the record has no value; otherwise the text is the description comment `# description` and a newline (empty without a description) followed by the entry line: `NAME=value`, bare only for a numeric or tristate prefix and quoted otherwise, or `# NAME is not set` when not defined |
| Parameter.Comment | kernel_config.py:527 | the comment line is `# `, the description and a newline, or empty without a description |
| Parameter.DefinedEntryReadsBack | kernel_config.py:529 | a defined line reads back as its name and its value, quoted or not |
| Parameter.UndefinedEntryReadsBack | kernel_config.py:529 | a `# NAME is not set` line reads back as the name with no value |
| Parameter.RenderReadsBack | kernel_config.py:526-530 | for a record with a value and a name with the prefix and no `=`, with or without a description: the rendering starts with the description comment, and reading back the rest gives the name and the value (none when not defined) |
| Parameter.QuotedValueUnambiguous | kernel_config.py:513-528 | a valid value that is not written bare holds no `"`, so its quoted form unquotes to exactly the value |
| Parameter.EqualsInNameIsNotReadBack | kernel_config.py:441 | the name class admits `=`: `A=B` with value `y` is accepted and renders `CONFIG_A=B=y`, which reads back as `CONFIG_A` set to `B=y` |
| Resolver.Store | kernel_config.py:397 | storing keeps the collection's order free of duplicates and in step with its keys |
| Resolver.StoreLastWriteWins | kernel_config.py:397 | the stored name maps to the new record, every other name keeps its record, the key set gains only that name, and the order grows only for a new name; the failure before the store is stated by `Resolver.UpdateOverwrites` |
| Resolver.Update | kernel_config.py:387-397 | `update_value` keeps the collection well formed |
| Resolver.UpdateOverwrites | kernel_config.py:394-397 | updating fails exactly when the name is held by a record that cannot be rendered (AttributeError on `value`, raised by the duplicate-key warning), and otherwise is `Store` of the record |
| Resolver.NullThenOverrideFails | kernel_config.py:394-395 | a null override followed by any override of the same name that yields a record fails with AttributeError on `value` |
| Resolver.KernelDict.constructor | kernel_config.py:313-320 | a new dictionary holds the given fact table and no records; reading the configuration file (line 319) is the separate `LoadConfig` call |
| Resolver.KernelDict.UpdateValue | kernel_config.py:387-397 | follows `Update`: overwriting a record that has no value fails with AttributeError and leaves the dictionary unchanged; otherwise the dictionary becomes `Store` of the old one and the record; the facts are unchanged |
| Resolver.CheckExpression | kernel_config.py:399-430 | without `is` or `in` the answer is false; it fails (KeyError) iff a present test lacks `value` or names an unknown fact; `in` decides membership and overrides `is`; `is` alone decides equality with the fact |
| Resolver.EvalConditions | kernel_config.py:379 | the list of answers has one entry per condition, each equal to that condition's answer; it fails iff some condition fails |
| Resolver.NullSpecUndefined | kernel_config.py:369-370 | a null override gives a record that is not defined and has no value, or the name's validation error |
| Resolver.NullSpecNeverRenders | kernel_config.py:528 | the record a null override gives cannot be rendered |
| Resolver.ScalarSpecDefined | kernel_config.py:382-385 | a scalar override succeeds iff name and text are valid, and then gives a defined record with that text as value |
| Resolver.MappingNeedsValue | kernel_config.py:374 | a mapping without `value` raises KeyError |
| Resolver.UnmetConditionsDropEntry | kernel_config.py:377-381 | when every condition evaluates and none holds, the dictionary is unchanged |
| Resolver.MetConditionKeepsEntry | kernel_config.py:377-385 | when some condition holds, the override acts as if it had no `if` list |
| Resolver.EmptyConditionsDropEntry | kernel_config.py:379 | an empty `if` list always drops the override |
| Resolver.ResolveKeepsFacts | kernel_config.py:322-331 | storing an override never changes the fact table and keeps the collection well formed |
| Resolver.KernelDict.SetItem | kernel_config.py:322-331 | `__setitem__` fails as the resolution does (a bad override, or overwriting a record that has no value) and then leaves the dictionary unchanged; otherwise the dictionary becomes the resolved one |
| Resolver.RenderKeysSucceedsIff | kernel_config.py:432-433 | the dictionary renders iff every record has a value |
| Resolver.RenderKeysFrame | kernel_config.py:433 | storing a record under a name outside the listed names leaves their rendering unchanged |
| Resolver.RenderAfterNewName | kernel_config.py:432-433 | storing a new name appends its rendering and a newline to the dictionary's text |
| Resolver.RenderKeysPrefixFailure | kernel_config.py:433 | a failure in the first records is the failure of the whole rendering |
| Resolver.KernelDict.Str | kernel_config.py:432-433 | `__str__` returns each record's rendering followed by a newline, in insertion order, or the first rendering error |
| Resolver.YamlFileName | kernel_config.py:350 | the file name ends with `.yaml` and starts with the given name |
| Resolver.YamlFileNameIdempotent | kernel_config.py:350 | the suffix is added at most once |
| Resolver.FactsOf | kernel_config.py:339-343 | the facts a configuration file sets never include `templates` |
| Resolver.FactsOfKeys | kernel_config.py:339-343 | a key is a fact iff it occurs in the file and is not `templates` |
| Resolver.FactsOfLastWins | kernel_config.py:343 | a key's fact is the value of its last occurrence; this concerns the pair-sequence input only, because the items of a parsed mapping never repeat a key |
| Resolver.ResolveAllKeepsFacts | kernel_config.py:353-354 | storing a template's overrides never changes the fact table |
| Resolver.LoadTemplatesKeepsFacts | kernel_config.py:345-354 | loading templates never changes the fact table |
| Resolver.LoadRoutesFacts | kernel_config.py:333-343 | after loading, the fact table is the old one updated with exactly the file's non-`templates` keys, last occurrence winning |
| Resolver.LoadWithoutTemplates | kernel_config.py:339-343 | a file without `templates` cannot fail and adds no record |
| Resolver.KernelDict.LoadYamlTemplate | kernel_config.py:345-354 | a missing template file fails; otherwise the file's overrides are stored in order until the first failure |
| Resolver.KernelDict.LoadYamlTemplates | kernel_config.py:345-346 | the templates of a list are loaded one after the other until the first failure |
| Resolver.KernelDict.LoadConfig | kernel_config.py:333-343 | `templates` loads the named templates, any other key becomes a fact, in file order |
| KconfigSpec.KindNamed | kernel_config.py:129 | a name denotes a table iff it is one of the five block keywords, and then it names that kind |
| KconfigSpec.KindNamedInverts | kernel_config.py:129 | every kind is found back from its keyword |
| KconfigSpec.AssignMode | kernel_config.py:66-78 | assigning the mode touches only the mode and the history, and leaves a mode set |
| KconfigSpec.ModeKind | kernel_config.py:210 | the current table exists iff the mode is set and is a block keyword |
| KconfigSpec.CurrentName | kernel_config.py:119 | `current_<mode>` exists iff the mode is a block keyword whose current name was set |
| KconfigSpec.CurrentRecord | kernel_config.py:113 | the record being filled is in the current mode's table, under that kind's current name |
| KconfigParser.KConfig.constructor | kernel_config.py:31-55 | a non-empty root or architecture overrides the default; the tables, history and children start empty and help mode is off |
| KconfigParser.KConfig.ConfigPath | kernel_config.py:61 | the opened path is the root, a slash and the file path |
| KconfigParser.KConfig.SetMode | kernel_config.py:66-78 | the mode hook follows `AssignMode`: push and set, or pop into the mode, failing on an empty history |
| KconfigParser.KConfig.SelectRecord | kernel_config.py:129-132 | the name becomes current for its kind, with a fresh empty record unless it is a dictionary attribute name |
| KconfigParser.KConfig.ExitMode | kernel_config.py:93-104 | `_exit_mode` follows `ExitModeSpec` |
| KconfigParser.KConfig.EnterMode | kernel_config.py:106-132 | `_enter_mode` follows `EnterModeSpec` |
| KconfigParser.KConfig.ProcessVar | kernel_config.py:134-165 | `_process_var` follows `ProcessVarSpec` |
| KconfigParser.KConfig.SetField | kernel_config.py:161-164 | one field of an existing record is written, nothing else changes |
| KconfigParser.KConfig.ParseLine | kernel_config.py:194-247 | `parse_line` follows `Step` |
| KconfigParser.KConfig.Prompt | kernel_config.py:208-214 | the `prompt` branch follows `PromptSpec` |
| KconfigParser.KConfig.AppendHelp | kernel_config.py:225-228 | the help branch follows `AppendHelpSpec` |
| KconfigParser.KConfig.Source | kernel_config.py:230-237 | the `source` branch follows `SourceSpec` |
| KconfigParser.KConfig.AddSubConfig | kernel_config.py:245 | the child is recorded under its path with the default root and architecture, nothing else changes |
| KconfigParser.KConfig.ParseConfig | kernel_config.py:57-64 | parsing a file follows `Run` over its lines, stopping at the first failure |
| KconfigProperties.PushThenPop | kernel_config.py:66-78 | pushing a mode and popping restores the history and makes the pushed value the mode |
| KconfigProperties.PopTakesLastEntry | kernel_config.py:76 | a pop fails on an empty history, and otherwise removes exactly the last entry and makes it the mode |
| KconfigProperties.ClosersDisjoint | kernel_config.py:97-98 | each closer contains itself and neither of the others |
| KconfigProperties.CloserPopsOnce | kernel_config.py:97-100 | a closer line pops exactly once, failing without a mode |
| KconfigProperties.CloserOutcome | kernel_config.py:93-104 | a closer fails without a mode or on an empty history; otherwise the popped entry becomes the mode and help mode ends, failing only when help mode was on and the restored mode has no current record |
| KconfigProperties.StepOnCloser | kernel_config.py:205-206 | an exact closer line is handled by `_exit_mode` |
| KconfigProperties.SettledUnchanged | kernel_config.py:198-199 | a line without trailing space or `$` passes preparation unchanged |
| KconfigProperties.KeywordStarts | kernel_config.py:174-176 | a line that starts with a block keyword is a start line and no earlier branch takes it |
| KconfigProperties.EnterKeywordName | kernel_config.py:121-132 | outside help, `kw name` pushes the line and then the keyword, sets the mode to the keyword and selects a fresh record `name` |
| KconfigProperties.EnterBareKeyword | kernel_config.py:120-123 | outside help, a bare keyword is pushed and becomes the mode |
| KconfigProperties.EnterKeywordNameInHelp | kernel_config.py:117-132 | in help, `kw name` ends help mode, pushes only the keyword and selects a fresh record `name` |
| KconfigProperties.StepOnOpener | kernel_config.py:216-217 | a prepared line starting with a block keyword goes to `_enter_mode` |
| KconfigProperties.StartLineOpensBlock | kernel_config.py:194-217 | `parse_line` on `kw name` outside help opens the block as `EnterKeywordName` says |
| KconfigProperties.BareStartLine | kernel_config.py:194-217 | `parse_line` on a bare keyword outside help pushes it as the mode |
| KconfigProperties.StartLineEndsHelp | kernel_config.py:117-119 | `parse_line` on `kw name` in help ends the help text and opens the block |
| KconfigProperties.OpenThenClose | kernel_config.py:93-132 | `kw name` then a closer succeeds, leaves the keyword as the mode and the whole line on the history |
| KconfigProperties.HelpLineEntersHelp | kernel_config.py:177-178 | a line that is `help` after left-stripping is a start line and begins help |
| KconfigProperties.EnterHelp | kernel_config.py:110-116 | `_enter_mode("help")` only begins help on the current record |
| KconfigProperties.HelpLineBeginsHelp | kernel_config.py:194-217 | `parse_line` on an indented `help` line begins help on the current record |
| KconfigProperties.BeginHelpIdempotent | kernel_config.py:113-114 | a second `help` line changes nothing |
| KconfigProperties.BeginHelpKeepsText | kernel_config.py:110-116 | beginning help turns help mode on and keeps an existing help text, or starts an empty one |
| KconfigProperties.StepOnHelpText | kernel_config.py:220-228 | in help mode, a line no earlier branch takes is appended as help text |
| KconfigProperties.AppendHelpOnRecord | kernel_config.py:227 | appending help extends the current record's text and keeps help mode and the current record |
| KconfigProperties.HelpLineAppends | kernel_config.py:220-228 | `parse_line` on a help body line appends its left-stripped text without separator |
| KconfigProperties.RunFirstStep | kernel_config.py:63-64 | a parse that passes its first line continues from the state that line left |
| KconfigProperties.HelpTextAccumulates | kernel_config.py:225-227 | a run of help body lines appends their left-stripped texts, concatenated without separator, to the help field |
| KconfigProperties.WriteTypeAndPrompt | kernel_config.py:158-162 | `v prompt` stores `v` as the type and the prompt without surrounding quotes |
| KconfigProperties.TypeLineSetsTypeAndPrompt | kernel_config.py:158-162 | in a config block a type line sets the type and the unquoted prompt of the current record |
| KconfigProperties.DefLineSetsDefault | kernel_config.py:151-164 | in a config block `def_<type> X` stores `<type> X` as the default and an empty type |
| KconfigProperties.ChoiceQuoteSelects | kernel_config.py:143-149 | in choice mode the first quoted text of a type line becomes the current choice, with a fresh record |
| KconfigProperties.ChoiceTypeLineNamesChoice | kernel_config.py:143-162 | a choice type line `v "p"` selects choice `p` and sets its type `v` and prompt `p` |
| KconfigProperties.FreshChoiceFields | kernel_config.py:146-162 | after that line the choice `p` is current and holds exactly the type and the prompt |
| KconfigProperties.VarLineShape | kernel_config.py:167-190 | a line `v "p"` with a type keyword `v` is not a start line or a `prompt` line, passes the type-line test, and starts with neither whitespace nor `#` |
| KconfigProperties.TypeLineStep | kernel_config.py:194-223 | `parse_line` on `v "p"` indented by any whitespace, with no `$` in `p`, is `_process_var` on the left-stripped line |
| KconfigProperties.IndentedLineRouting | kernel_config.py:198-220 | an indented type line is not skipped, not a closer, not a prompt and not a start line, and left-strips to `v "p"` |
| KconfigProperties.IndentedContent | kernel_config.py:201-220 | a line that no structural branch takes is handled as its left-stripped text |
| KconfigProperties.ConfigLineStep | kernel_config.py:121-132 | outside help, `config N` pushes the line and `config`, enters the `config` mode and selects a fresh record `N` |
| KconfigProperties.TypeLineOnFreshConfig | kernel_config.py:158-162 | a tab-indented `v "p"` right after `config N` sets the type `v` and the unquoted prompt `p` of `N` |
| KconfigProperties.FreshConfigFields | kernel_config.py:129-162 | after that line `N` is current and holds exactly the type and the prompt |
| KconfigProperties.ConfigThenTypeLine | kernel_config.py:57-64 | parsing `config N` then a tab-indented `v "p"` succeeds with `config` as the mode, `config N` and `config` pushed, `N` current and holding exactly the type `v` and the prompt `p`, and no child recorded |
| KconfigProperties.SourceTokens | kernel_config.py:233 | the second word of `source "p"` is the quoted path |
| KconfigProperties.SourceDirectiveFound | kernel_config.py:230 | `source "p"` matches the source pattern |
| KconfigProperties.SoLineStartsNoBlock | kernel_config.py:174-176 | a line starting with `so` is not a start line |
| KconfigProperties.SourceLineIsContent | kernel_config.py:201-220 | no structural branch takes a `source` line |
| KconfigProperties.SourceLineNotVar | kernel_config.py:186-190 | a `source` line is not a type line |
| KconfigProperties.SourceInHelpAppends | kernel_config.py:225-230 | in help mode a `source "p"` line is appended to the help text and no child is recorded |
| KconfigProperties.SourceLineRecordsChild | kernel_config.py:230-245 | outside help, `source "p"` skips a `.include` path and otherwise records a child for `p` with the default root and architecture, changing nothing else |
| KconfigProperties.SubstituteIsReplace | kernel_config.py:261-271 | substitution replaces every `$(SRCARCH)` by the architecture, and is the identity on lines without it |
| KconfigProperties.CommentOrBlankSkipped | kernel_config.py:80-91 | a blank line or one starting with `#` changes nothing |
| KconfigProperties.InitialWellformed | kernel_config.py:47-52 | the initial parser state satisfies the mode invariant |
| KconfigProperties.AssignKeepsWellformed | kernel_config.py:66-78 | assigning a start line as mode, or popping, keeps the invariant |
| KconfigProperties.PopKeepsWellformed | kernel_config.py:97-100 | the closer pops keep the invariant |
| KconfigProperties.ExitKeepsWellformed | kernel_config.py:93-104 | `_exit_mode` keeps the invariant |
| KconfigProperties.EnterKeepsWellformed | kernel_config.py:106-132 | `_enter_mode` on a start line keeps the invariant |
| KconfigProperties.TestStartShape | kernel_config.py:167-180 | a line that passes the start test is, left-stripped, a start line or `help` |
| KconfigProperties.PromptKeepsModes | kernel_config.py:208-214 | a `prompt` line leaves mode, history and help mode unchanged |
| KconfigProperties.ProcessVarKeepsModes | kernel_config.py:134-165 | a type line leaves mode, history and help mode unchanged |
| KconfigProperties.ContentKeepsModes | kernel_config.py:220-247 | type, help and `source` lines leave mode, history and help mode unchanged |
| KconfigProperties.StepKeepsWellformed | kernel_config.py:194-247 | every line that parses keeps the invariant: the mode and every history entry start with a block keyword, and no mode means empty history and no help |
| KconfigProperties.RunKeepsWellformed | kernel_config.py:57-64 | every file that parses keeps the invariant |

## Left out

- File access: `parse_config` opens `base_path/file_path` (kernel_config.py:61), and `load_config` and `load_yaml_template` open and parse YAML. The parser takes the file's lines as a sequence. The resolver takes the configuration file as `(key, fact)` pairs, and the template files as a map from path to `(key, override)` pairs. Each parsed document is assumed to be a mapping, whose items these pairs are. An empty configuration or template file (`safe_load` gives `None`), or one whose document is not a mapping, raises AttributeError on `.items()` (kernel_config.py:339, 353), and the model does not capture that.
- Logging calls and the `class_logger` decorator are left out, and so is `main.py`. A log message that reads a missing attribute is kept as the failure it raises (kernel_config.py:99, 103, 119, 395).
- Parsing a child file on `source` is not modelled: it recurses through file access. A child is recorded by path, with the root and architecture it would start from.
- KconfigSpec.SourceSpec, KconfigParser.KConfig.Source and KconfigProperties.SourceLineRecordsChild assume that the child parse succeeds. In the code, `KConfig(**kwargs)` parses the child before it is stored (kernel_config.py:245, 54-64), and the child always opens `/usr/src/linux/<path>`, whatever root the parent was given. A missing child file, or any exception raised while parsing the child, therefore escapes the parent's parse and leaves `sub_configs` unchanged. The model records every child and succeeds, so its success on a `source` line is conditional on that assumption.
- `process_select`, `print_all_configs` and `print_all_sub_configs` are left out. The first is never called. The other two only print.
- The `in_<mode>` attributes and the `menu`/`choice` forwarding to children are left out. `kwargs` never carries those keys, so this code is dead.
- `handle_plural` comes from `zen_custom`, which is not part of this model. `KernelDict.LoadYamlTemplates` treats a `templates` value as a list of names, one string being a list of one.
- Resolver.Fact / Resolver.Condition: facts are only strings or lists of strings, and a condition's `value` is only a string. The code stores any YAML value as a fact (kernel_config.py:343) and compares it as it is (kernel_config.py:417-430), and the model does not capture these cases. With `value: 4` and the fact `4`, `is` holds. `in` on a mapping fact tests its keys. `in` on an integer, boolean or null fact raises TypeError. An `if` value that is not a list of mappings is not captured either. For a string element, `'is' in expression` is a substring test, and `expression['is']` then raises TypeError. A single mapping is iterated over its keys.
- Resolver.Spec: override values are text. A scalar arrives already stringified (kernel_config.py:385). A mapping's `value` and `description` are taken as strings, which covers integers, floats and dates: validation and rendering test `str(value)` against the bare pattern first (kernel_config.py:519, 528), so such a value behaves as its decimal text. A non-string `description` renders as its text. Left out is the crash for a mapping `value` whose `str` fails the bare test, that is a boolean, `null`, `.inf`/`.nan`, a list or a mapping: `re.search` on a non-string raises TypeError (kernel_config.py:521).
- Resolver.KernelDict.UpdateValue: the ValueError for an argument that is not a record cannot occur in the typed model.
- Parameter.Construct: the ValueError for a missing required name cannot occur. Every caller passes a name.
- Text.Upper: only ASCII letters are upper-cased. Names are validated before they are upper-cased, and a valid name holds only ASCII characters, so normalisation is unaffected.
- Mutable default arguments (`config_values={}` shared between instances) and object aliasing are not modelled.
- Dictionary and `sub_configs` insertion order is kept only for `KernelDict`'s records, which is where `__str__` depends on it.
- The state of a `KConfig` after an exception is not specified: the exception escapes the constructor and the object is never seen.
