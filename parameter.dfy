/**
 * One record of a kernel `.config` file (`LinuxKernelConfigParameter`): name and value
 * validation, name normalisation, construction from keyword arguments and rendering.
 */
module Parameter {
  import opened Wrappers
  import opened Errors
  import opened Text

  const Prefix: string := "CONFIG_"

  /**
   * A character the name check accepts. The class written `[^a-zA0-Z_0-9]` allows `a`..`z`,
   * the letter `A`, the whole range `0`..`Z` (digits, `:;<=>?@` and `A`..`Z`) and `_`.
   */
  predicate NameChar(c: char) {
    ('a' <= c <= 'z') || c == 'A' || ('0' <= c <= 'Z') || c == '_' || ('0' <= c <= '9')
  }

  /** `_validate_name`: no character outside the class above (the empty name passes). */
  predicate ValidName(name: string) {
    forall i :: 0 <= i < |name| ==> NameChar(name[i])
  }

  /** `_set_name`: upper-case, then add `CONFIG_` unless the upper-cased name already has it. */
  function NormaliseName(name: string): (r: string)
    ensures StartsWith(r, Prefix)
    ensures ValidName(name) ==> ValidName(r)
  {
    var upper := Upper(name);
    if StartsWith(upper, Prefix) then upper else Prefix + upper
  }

  predicate IsDigit(c: char) {
    '0' <= c <= '9'
  }

  /**
   * The numeric-or-tristate test `^(-?([0-9])+|[ynm])`, a search anchored only at the start:
   * the value begins with a digit, with `-` and a digit, or with `y`, `n` or `m`.
   */
  predicate BareValue(v: string) {
    |v| > 0 && (IsDigit(v[0]) || v[0] in "ynm" || (v[0] == '-' && |v| > 1 && IsDigit(v[1])))
  }

  /** A character of the string-value class `[a-zA-Z0-9/_.,-=\(\) ]`, where `,-=` is the range 0x2C..0x3D. */
  predicate StringChar(c: char) {
    ('a' <= c <= 'z') || ('A' <= c <= 'Z') || IsDigit(c) || c == '/' || c == '_' || c == '.'
    || (',' <= c <= '=') || c == '(' || c == ')' || c == ' '
  }

  predicate AllStringChars(v: string) {
    forall i :: 0 <= i < |v| ==> StringChar(v[i])
  }

  /** The full-match test `^(...)*$`; Python's `$` also matches just before one final newline. */
  predicate StringValue(v: string) {
    AllStringChars(v) || (|v| > 0 && v[|v| - 1] == '\n' && AllStringChars(v[..|v| - 1]))
  }

  /** `_validate_value`: either test passes. */
  predicate ValidValue(v: string) {
    BareValue(v) || StringValue(v)
  }

  /**
   * A constructed record. `value` is `None` when the attribute was never assigned, and so is
   * `description`.
   */
  datatype Param = Param(name: string, value: Option<string>, defined: bool, description: Option<string>)

  /**
   * `__init__` over the components `name`, `value`, `defined`, `description` in that order.
   * Each assignment is validated before it is stored, so a bad name is reported before a bad
   * value. Assigning `value` sets `defined`, and the `defined` component (the argument, or
   * its default `True`) is assigned after it.
   */
  function Construct(name: string, value: Option<string>, defined: Option<bool>, description: Option<string>)
    : (r: Result<Param, Error>)
    ensures r.Success? <==> ValidName(name) && (value.Some? ==> ValidValue(value.value))
    ensures !ValidName(name) ==> r == Failure(InvalidName(name))
    ensures ValidName(name) && value.Some? && !ValidValue(value.value) ==> r == Failure(InvalidValue(value.value))
    ensures r.Success? ==> r.value.name == NormaliseName(name) && r.value.value == value
    ensures r.Success? ==> r.value.defined == defined.GetOr(true) && r.value.description == description
  {
    if !ValidName(name) then Failure(InvalidName(name))
    else
      var named := Param(NormaliseName(name), None, true, None);
      if value.Some? && !ValidValue(value.value) then Failure(InvalidValue(value.value))
      else
        var valued := if value.Some? then named.(value := value, defined := true) else named;
        var flagged := valued.(defined := defined.GetOr(true));
        Success(flagged.(description := description))
  }

  /**
   * The record object as `__init__` builds it, one attribute at a time through the validating
   * `__setattr__` hook. A fresh object has no attribute yet; its model reads as an empty name,
   * no value, defined and no description until the components are assigned.
   */
  class ConfigParameter {
    var name: string
    var value: Option<string>
    var defined: bool
    var description: Option<string>

    function Model(): Param
      reads this
    {
      Param(name, value, defined, description)
    }

    constructor ()
      ensures Model() == Param("", None, true, None)
    {
      name := "";
      value := None;
      defined := true;
      description := None;
    }

    /** `self.name = n`: `_validate_name` first, then `_set_name` stores the normal form. */
    method SetName(n: string) returns (r: Outcome<Error>)
      modifies this
      ensures ValidName(n) ==> r == Pass && Model() == old(Model()).(name := NormaliseName(n))
      ensures !ValidName(n) ==> r == Fail(InvalidName(n)) && Model() == old(Model())
    {
      if !ValidName(n) {
        return Fail(InvalidName(n));
      }
      name := NormaliseName(n);
      return Pass;
    }

    /** `self.value = v` for a string: `_validate_value` first, then `_set_value` also sets `defined`. */
    method SetValue(v: string) returns (r: Outcome<Error>)
      modifies this
      ensures ValidValue(v) ==> r == Pass && Model() == old(Model()).(value := Some(v), defined := true)
      ensures !ValidValue(v) ==> r == Fail(InvalidValue(v)) && Model() == old(Model())
    {
      if !ValidValue(v) {
        return Fail(InvalidValue(v));
      }
      defined := true;
      value := Some(v);
      return Pass;
    }

    /** `self.defined = b`: no validator and no setter. */
    method SetDefined(b: bool)
      modifies this
      ensures Model() == old(Model()).(defined := b)
    {
      defined := b;
    }

    /** `self.description = d`: no validator and no setter. */
    method SetDescription(d: string)
      modifies this
      ensures Model() == old(Model()).(description := Some(d))
    {
      description := Some(d);
    }

    /**
     * `__init__`: the components in their declared order. A given argument is assigned, an
     * absent one falls back to its default (only `defined` has one) or is left unset. The
     * first failed validation ends construction with its error.
     */
    static method Create(name: string, value: Option<string>, defined: Option<bool>, description: Option<string>)
      returns (r: Result<ConfigParameter, Error>)
      ensures r.Success? <==> Construct(name, value, defined, description).Success?
      ensures r.Failure? ==> r.error == Construct(name, value, defined, description).error
      ensures r.Success? ==> fresh(r.value) && r.value.Model() == Construct(name, value, defined, description).value
    {
      var p := new ConfigParameter();
      var o := p.SetName(name);
      if o.Fail? {
        return Failure(o.error);
      }
      if value.Some? {
        o := p.SetValue(value.value);
        if o.Fail? {
          return Failure(o.error);
        }
      }
      p.SetDefined(defined.GetOr(true));
      if description.Some? {
        p.SetDescription(description.value);
      }
      return Success(p);
    }
  }

  /** The value as `__str__` writes it: bare when it passes the numeric-or-tristate test, quoted otherwise. */
  function Shown(v: string): string {
    if BareValue(v) then v else "\"" + v + "\""
  }

  /** The record's own line, without the description comment. */
  function EntryLine(name: string, defined: bool, v: string): string {
    if defined then name + "=" + Shown(v) else "# " + name + " is not set"
  }

  /**
   * `__str__`. It reads `value` whether or not the record is defined, so a record whose value
   * was never assigned raises AttributeError instead of rendering.
   */
  function Render(p: Param): (r: Result<string, Error>)
    ensures r.Failure? <==> p.value.None?
    ensures r.Failure? ==> r.error == MissingAttribute("value")
    ensures r.Success? ==> r.value == Comment(p.description) + EntryLine(p.name, p.defined, p.value.value)
  {
    match p.value
    case None => Failure(MissingAttribute("value"))
    case Some(v) => Success(Comment(p.description) + EntryLine(p.name, p.defined, v))
  }

  /** The description comment line that precedes a described record; nothing without one. */
  function Comment(description: Option<string>): string {
    if description.Some? then "# " + description.value + "\n" else ""
  }

  /**
   * Reading a `.config` line back: `# NAME is not set`, or `NAME=VALUE` split at the first
   * `=` with one pair of surrounding double quotes removed. This is the reader the rendering
   * is written for; the lemmas below relate the two.
   */
  function ReadEntry(line: string): Option<(string, Option<string>)> {
    if StartsWith(line, "# ") && EndsWith(line, " is not set") && |line| >= 13 then
      Some((line[2..|line| - 11], None))
    else match IndexOf(line, '=')
      case None => None
      case Some(i) => Some((line[..i], Some(Unquote(line[i + 1..]))))
  }

  /** Removes one pair of surrounding double quotes, if present. */
  function Unquote(v: string): string {
    if |v| >= 2 && v[0] == '"' && v[|v| - 1] == '"' then v[1..|v| - 1] else v
  }

  /** Normalising is idempotent: a normalised name is its own normal form. */
  lemma NormaliseIdempotent(name: string)
    ensures NormaliseName(NormaliseName(name)) == NormaliseName(name)
  {
    var upper := Upper(name);
    UpperIdempotent(name);
    UpperPrefix();
    if !StartsWith(upper, Prefix) {
      UpperConcat(Prefix, upper);
      assert (Prefix + upper)[..|Prefix|] == Prefix;
    }
  }

  /**
   * A spelled-out prefix in any letter case is absorbed: `config_foo` and `foo` normalise to the
   * same key, provided the rest does not itself start with the prefix.
   */
  lemma NormaliseAbsorbsPrefix(prefix: string, rest: string)
    requires Upper(prefix) == Prefix
    requires !StartsWith(Upper(rest), Prefix)
    ensures NormaliseName(prefix + rest) == NormaliseName(rest) == Prefix + Upper(rest)
  {
    UpperConcat(prefix, rest);
    assert (Prefix + Upper(rest))[..|Prefix|] == Prefix;
  }

  /** Names that differ only in letter case normalise to the same key. */
  lemma NormaliseIgnoresCase(a: string, b: string)
    requires Upper(a) == Upper(b)
    ensures NormaliseName(a) == NormaliseName(b)
  {
  }

  lemma UpperLowerPrefix()
    ensures Upper("config_") == Prefix
  {
    assert forall i :: 0 <= i < 7 ==> Upper("config_")[i] == Prefix[i];
  }

  lemma UpperPrefix()
    ensures Upper(Prefix) == Prefix
  {
    assert forall i :: 0 <= i < 7 ==> Upper(Prefix)[i] == Prefix[i];
  }

  lemma UpperFoo()
    ensures Upper("foo") == "FOO" && Upper("FOO") == "FOO"
  {
    assert forall i :: 0 <= i < 3 ==> Upper("foo")[i] == "FOO"[i];
    assert forall i :: 0 <= i < 3 ==> Upper("FOO")[i] == "FOO"[i];
  }

  /** `config_foo` and `CONFIG_FOO` name the same record. */
  lemma NormaliseExample()
    ensures NormaliseName("config_foo") == NormaliseName("CONFIG_FOO") == "CONFIG_FOO"
  {
    UpperLowerPrefix();
    UpperPrefix();
    UpperFoo();
    NormaliseAbsorbsPrefix("config_", "foo");
    NormaliseAbsorbsPrefix("CONFIG_", "FOO");
    assert "config_" + "foo" == "config_foo";
    assert "CONFIG_" + "FOO" == "CONFIG_FOO";
  }

  /**
   * Which values the validator accepts: numbers and tristates, a value that merely starts like
   * one, the string class (whose `,-=` range admits `;`), a trailing newline; a double quote
   * elsewhere is rejected.
   */
  lemma ValueExamples()
    ensures ValidValue("y") && ValidValue("-12") && ValidValue("ok_value-1")
    ensures ValidValue("bad;value") && ValidValue("maybe \"so\"") && ValidValue("ok\n")
    ensures ValidValue("-x") && !ValidValue("a\"b") && !ValidValue("x!") && !ValidValue("\nok")
  {
    assert "a\"b"[1] == '"';
    assert !AllStringChars("a\"b");
    assert !StringChar("x!"[1]);
    assert !AllStringChars("x!");
    assert !StringChar("\nok"[0]);
    assert !AllStringChars("\nok");
  }

  /**
   * An accepted value that is not bare holds no double quote, so the quotes `__str__` puts
   * around it are the only ones in the line and removing them gives the value back.
   */
  lemma QuotedValueUnambiguous(v: string)
    requires ValidValue(v) && !BareValue(v)
    ensures '"' !in v
    ensures Shown(v) == "\"" + v + "\"" && Unquote(Shown(v)) == v
  {
    if '"' in v {
      var i :| 0 <= i < |v| && v[i] == '"';
      assert !StringChar(v[i]);
      if !AllStringChars(v) {
        assert |v| > 0 && v[|v| - 1] == '\n' && AllStringChars(v[..|v| - 1]);
        assert i != |v| - 1;
        assert v[..|v| - 1][i] == v[i];
      }
    }
    var q := Shown(v);
    assert q[1..|q| - 1] == v;
  }

  /** The index of the first `=` in a rendered line is the length of an `=`-free name. */
  lemma {:induction false} FirstEquals(name: string, rest: string)
    requires '=' !in name
    ensures IndexOf(name + "=" + rest, '=') == Some(|name|)
  {
    if name != [] {
      assert (name + "=" + rest)[1..] == name[1..] + "=" + rest;
      FirstEquals(name[1..], rest);
    }
  }

  /** An assignment line splits at the `=` that ends an `=`-free name starting with the prefix. */
  lemma ReadAssignment(name: string, rest: string)
    requires StartsWith(name, Prefix) && '=' !in name
    ensures ReadEntry(name + "=" + rest) == Some((name, Some(Unquote(rest))))
  {
    var line := name + "=" + rest;
    assert line[0] == 'C' by {
      assert name[..7] == Prefix;
    }
    assert !StartsWith(line, "# ") by {
      assert line[..2][0] == 'C';
    }
    FirstEquals(name, rest);
    assert line[..|name|] == name;
    assert line[|name| + 1..] == rest;
  }

  /** A defined entry reads back as its name and value when the name starts with the prefix and has no `=`. */
  lemma DefinedEntryReadsBack(name: string, v: string)
    requires StartsWith(name, Prefix) && '=' !in name
    ensures ReadEntry(EntryLine(name, true, v)) == Some((name, Some(v)))
  {
    ReadAssignment(name, Shown(v));
    if !BareValue(v) {
      var shown := Shown(v);
      assert shown[1..|shown| - 1] == v;
    }
  }

  /** An undefined entry reads back as its name and no value. */
  lemma UndefinedEntryReadsBack(name: string, v: string)
    ensures ReadEntry(EntryLine(name, false, v)) == Some((name, None))
  {
    var line := "# " + name + " is not set";
    assert line[..2] == "# ";
    assert line[|line| - 11..] == " is not set";
    assert line[2..|line| - 11] == name;
  }

  /**
   * Reading back what is rendered, past the description comment if there is one, gives the
   * record's name and value (no value when it is not defined), for every name that starts
   * with the prefix and holds no `=`.
   */
  lemma RenderReadsBack(p: Param)
    requires p.value.Some?
    requires StartsWith(p.name, Prefix) && '=' !in p.name
    ensures Render(p).Success? && StartsWith(Render(p).value, Comment(p.description))
    ensures ReadEntry(Render(p).value[|Comment(p.description)|..]) == Some((p.name, if p.defined then p.value else None))
  {
    var c := Comment(p.description);
    var e := EntryLine(p.name, p.defined, p.value.value);
    assert (c + e)[..|c|] == c && (c + e)[|c|..] == e;
    if p.defined {
      DefinedEntryReadsBack(p.name, p.value.value);
    } else {
      UndefinedEntryReadsBack(p.name, p.value.value);
    }
  }

  lemma BuildEqualsName()
    ensures Construct("A=B", Some("y"), None, None) == Success(Param("CONFIG_A=B", Some("y"), true, None))
  {
    assert Upper("A=B") == "A=B" by {
      assert forall i :: 0 <= i < 3 ==> Upper("A=B")[i] == "A=B"[i];
    }
    assert ValidName("A=B") by {
      assert forall i :: 0 <= i < 3 ==> NameChar("A=B"[i]);
    }
    assert NormaliseName("A=B") == "CONFIG_A=B" by {
      assert Prefix + "A=B" == "CONFIG_A=B";
    }
    assert BareValue("y");
  }

  lemma ReadEqualsLine()
    ensures ReadEntry("CONFIG_A=B=y") == Some(("CONFIG_A", Some("B=y")))
  {
    assert "CONFIG_A" + "=" + "B=y" == "CONFIG_A=B=y";
    assert "CONFIG_A"[..7] == Prefix;
    ReadAssignment("CONFIG_A", "B=y");
  }

  /**
   * The name class admits `=`, so a valid name can render a line that reads back as a different
   * record: `A=B` with value `y` renders `CONFIG_A=B=y`, which reads as `CONFIG_A` set to `B=y`.
   */
  lemma EqualsInNameIsNotReadBack()
    ensures Construct("A=B", Some("y"), None, None) == Success(Param("CONFIG_A=B", Some("y"), true, None))
    ensures Render(Param("CONFIG_A=B", Some("y"), true, None)) == Success("CONFIG_A=B=y")
    ensures ReadEntry("CONFIG_A=B=y") == Some(("CONFIG_A", Some("B=y")))
  {
    BuildEqualsName();
    ReadEqualsLine();
    RenderEqualsName();
  }

  lemma RenderEqualsName()
    ensures Render(Param("CONFIG_A=B", Some("y"), true, None)) == Success("CONFIG_A=B=y")
  {
    assert BareValue("y");
    assert Comment(None) + ("CONFIG_A=B" + "=" + "y") == "CONFIG_A=B=y";
  }
}
