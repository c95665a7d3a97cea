/**
 * `KernelDict`: the ordered dictionary of kernel config records. Each raw override read from
 * a YAML template is classified (null, scalar or mapping with optional `if` conditions
 * evaluated against a table of facts) and turned into a record, which is stored under its
 * normalised name.
 */
module Resolver {
  import opened Wrappers
  import opened Errors
  import opened Text
  import opened Parameter

  /** A value of the fact table `config_values`: a string or a list of strings. */
  datatype Fact = Str(text: string) | List(items: seq<string>)

  /** One element of an `if` list: a mapping that may hold the keys `value`, `is` and `in`. */
  datatype Condition = Condition(value: Option<string>, isKey: Option<string>, inKey: Option<string>)

  /**
   * A raw override as the YAML loader hands it over: null, a scalar (already in the text
   * form `str` gives it), or a mapping with optional `value`, `description` and `if` keys.
   */
  datatype Spec =
    | Null
    | Scalar(text: string)
    | Mapping(value: Option<string>, description: Option<string>, conditions: Option<seq<Condition>>)

  /** The records under their names, with the insertion order a Python dict keeps. */
  datatype Collection = Collection(order: seq<string>, records: map<string, Param>) {
    ghost predicate Valid() {
      (forall i, j :: 0 <= i < j < |order| ==> order[i] != order[j])
      && (forall k :: k in records <==> k in order)
    }
  }

  const Empty: Collection := Collection([], map[])

  /** The whole state of a `KernelDict`: its fact table and its records. */
  datatype Resolution = Resolution(facts: map<string, Fact>, items: Collection)

  /** `dict.__setitem__`: a new name goes last, an existing name keeps its place. */
  function Store(c: Collection, p: Param): (r: Collection)
    ensures c.Valid() ==> r.Valid()
  {
    if p.name in c.records then c.(records := c.records[p.name := p])
    else Collection(c.order + [p.name], c.records[p.name := p])
  }

  /** Later writes win; every other name keeps its record; only a new name grows the order. */
  lemma StoreLastWriteWins(c: Collection, p: Param)
    requires c.Valid()
    ensures Store(c, p).records[p.name] == p
    ensures forall k :: k in c.records && k != p.name ==> Store(c, p).records[k] == c.records[k]
    ensures Store(c, p).records.Keys == c.records.Keys + {p.name}
    ensures |Store(c, p).order| == |c.order| + (if p.name in c.records then 0 else 1)
    ensures p.name in c.records ==> Store(c, p).order == c.order
  {
  }

  /**
   * `update_value`. Before storing, the duplicate-name warning formats the record already
   * held under the name, and that formatting is `__str__`, which reads `value`: a held record
   * without a value raises AttributeError and nothing is stored.
   */
  function Update(c: Collection, p: Param): (r: Result<Collection, Error>)
    ensures c.Valid() && r.Success? ==> r.value.Valid()
  {
    if p.name in c.records && c.records[p.name].value.None? then Failure(MissingAttribute("value"))
    else Success(Store(c, p))
  }

  /**
   * Overwriting fails exactly when the name already holds a record without a value; otherwise
   * the new record is stored, last write winning.
   */
  lemma UpdateOverwrites(c: Collection, p: Param)
    ensures Update(c, p).Failure? <==> p.name in c.records && Render(c.records[p.name]).Failure?
    ensures Update(c, p).Failure? ==> Update(c, p).error == MissingAttribute("value")
    ensures Update(c, p).Success? ==> Update(c, p).value == Store(c, p)
  {
  }


  /** Membership as Python's `in` sees it: an element of a list, a substring of a string. */
  predicate Member(v: string, f: Fact) {
    match f
    case Str(s) => Contains(s, v)
    case List(xs) => v in xs
  }

  /** `_expression_is`: reads `value`, then the fact named by `is`, and compares them. */
  function ExpressionIs(facts: map<string, Fact>, c: Condition): Result<bool, Error>
    requires c.isKey.Some?
  {
    if c.value.None? then Failure(MissingKey("value"))
    else if c.isKey.value !in facts then Failure(MissingKey(c.isKey.value))
    else Success(facts[c.isKey.value] == Str(c.value.value))
  }

  /** `_expression_in`: reads `value`, then the fact named by `in`, and tests membership. */
  function ExpressionIn(facts: map<string, Fact>, c: Condition): Result<bool, Error>
    requires c.inKey.Some?
  {
    if c.value.None? then Failure(MissingKey("value"))
    else if c.inKey.value !in facts then Failure(MissingKey(c.inKey.value))
    else Success(Member(c.value.value, facts[c.inKey.value]))
  }

  /**
   * `check_expression`: the `is` test runs first when present, then the `in` test, whose
   * answer replaces it; with neither key the answer is false. A missing key raises.
   */
  function CheckExpression(facts: map<string, Fact>, c: Condition): (r: Result<bool, Error>)
    ensures c.isKey.None? && c.inKey.None? ==> r == Success(false)
    ensures r.Failure? <==>
      (c.isKey.Some? || c.inKey.Some?)
      && (c.value.None? || (c.isKey.Some? && c.isKey.value !in facts) || (c.inKey.Some? && c.inKey.value !in facts))
    ensures r.Failure? ==> r.error.MissingKey?
    ensures r.Success? && c.inKey.Some? ==> r.value == Member(c.value.value, facts[c.inKey.value])
    ensures r.Success? && c.inKey.None? && c.isKey.Some? ==> r.value == (facts[c.isKey.value] == Str(c.value.value))
  {
    var first: Result<bool, Error> := if c.isKey.Some? then ExpressionIs(facts, c) else Success(false);
    if first.Failure? then first
    else if c.inKey.Some? then ExpressionIn(facts, c)
    else first
  }

  /** The `if` list evaluated in full, left to right; the first condition that raises aborts it. */
  function EvalConditions(facts: map<string, Fact>, cs: seq<Condition>): (r: Result<seq<bool>, Error>)
    ensures r.Success? ==> |r.value| == |cs|
    ensures r.Success? ==> forall i :: 0 <= i < |cs| ==> CheckExpression(facts, cs[i]) == Success(r.value[i])
    ensures r.Failure? <==> exists i :: 0 <= i < |cs| && CheckExpression(facts, cs[i]).Failure?
  {
    if cs == [] then Success([])
    else
      match CheckExpression(facts, cs[0])
      case Failure(e) => Failure(e)
      case Success(b) =>
        match EvalConditions(facts, cs[1..])
        case Failure(e) => Failure(e)
        case Success(bs) =>
          assert forall i :: 1 <= i < |cs| ==> cs[i] == cs[1..][i - 1];
          Success([b] + bs)
  }

  /** Some condition holds; assumes none of them raises. */
  predicate AnyHolds(facts: map<string, Fact>, cs: seq<Condition>) {
    exists i :: 0 <= i < |cs| && CheckExpression(facts, cs[i]) == Success(true)
  }

  function Some_(r: Result<Param, Error>): Result<Option<Param>, Error> {
    match r
    case Success(p) => Success(Some(p))
    case Failure(e) => Failure(e)
  }

  /**
   * `_gen_config_obj_from_dict`: null makes an undefined record, a scalar a record with
   * that value, a mapping a record from its `value` and `description`, unless it carries an
   * `if` list none of whose conditions holds, in which case there is no record at all.
   */
  function GenConfigObj(facts: map<string, Fact>, name: string, spec: Spec): Result<Option<Param>, Error> {
    match spec
    case Null => Some_(Construct(name, None, Some(false), None))
    case Scalar(t) => Some_(Construct(name, Some(t), None, None))
    case Mapping(value, description, conditions) =>
      if value.None? then Failure(MissingKey("value"))
      else if conditions.None? then Some_(Construct(name, value, None, description))
      else
        match EvalConditions(facts, conditions.value)
        case Failure(e) => Failure(e)
        case Success(results) =>
          if true !in results then Success(None) else Some_(Construct(name, value, None, description))
  }

  /** `__setitem__`: the record, if any, is stored; the fact table is untouched. */
  function Resolve(d: Resolution, key: string, spec: Spec): Result<Resolution, Error> {
    match GenConfigObj(d.facts, key, spec)
    case Failure(e) => Failure(e)
    case Success(None) => Success(d)
    case Success(Some(p)) =>
      var items :- Update(d.items, p);
      Success(d.(items := items))
  }

  /** A null override makes a record that is not defined and has no value. */
  lemma NullSpecUndefined(facts: map<string, Fact>, name: string)
    ensures ValidName(name) ==>
      GenConfigObj(facts, name, Null) == Success(Some(Param(NormaliseName(name), None, false, None)))
    ensures !ValidName(name) ==> GenConfigObj(facts, name, Null) == Failure(InvalidName(name))
  {
  }

  /** Such a record can be stored but never rendered: `__str__` reads its missing value. */
  lemma NullSpecNeverRenders(facts: map<string, Fact>, name: string)
    requires GenConfigObj(facts, name, Null).Success?
    ensures Render(GenConfigObj(facts, name, Null).value.value).Failure?
  {
  }

  /** A scalar override makes a defined record whose value is that text, if both are valid. */
  lemma ScalarSpecDefined(facts: map<string, Fact>, name: string, text: string)
    ensures GenConfigObj(facts, name, Scalar(text)).Success? <==> ValidName(name) && ValidValue(text)
    ensures GenConfigObj(facts, name, Scalar(text)).Success? ==>
      GenConfigObj(facts, name, Scalar(text)).value == Some(Param(NormaliseName(name), Some(text), true, None))
  {
  }

  /** A mapping without `value` raises before anything else is looked at. */
  lemma MappingNeedsValue(d: Resolution, key: string, description: Option<string>, cs: Option<seq<Condition>>)
    ensures Resolve(d, key, Mapping(None, description, cs)) == Failure(MissingKey("value"))
  {
  }

  /** When every condition evaluates and none holds, the override is dropped: nothing changes. */
  lemma UnmetConditionsDropEntry(d: Resolution, key: string, v: string, description: Option<string>, cs: seq<Condition>)
    requires EvalConditions(d.facts, cs).Success? && !AnyHolds(d.facts, cs)
    ensures Resolve(d, key, Mapping(Some(v), description, Some(cs))) == Success(d)
  {
  }

  /** When some condition holds, the override acts as if it had no `if` list at all. */
  lemma MetConditionKeepsEntry(d: Resolution, key: string, v: string, description: Option<string>, cs: seq<Condition>)
    requires EvalConditions(d.facts, cs).Success? && AnyHolds(d.facts, cs)
    ensures Resolve(d, key, Mapping(Some(v), description, Some(cs))) == Resolve(d, key, Mapping(Some(v), description, None))
  {
    var results := EvalConditions(d.facts, cs).value;
    assert true in results by {
      var i :| 0 <= i < |cs| && CheckExpression(d.facts, cs[i]) == Success(true);
      assert results[i] == true;
    }
    assert GenConfigObj(d.facts, key, Mapping(Some(v), description, Some(cs)))
        == GenConfigObj(d.facts, key, Mapping(Some(v), description, None));
  }

  /** An empty `if` list has no condition that could hold, so the override is always dropped. */
  lemma EmptyConditionsDropEntry(d: Resolution, key: string, v: string, description: Option<string>)
    ensures Resolve(d, key, Mapping(Some(v), description, Some([]))) == Success(d)
  {
  }

  /**
   * A null override followed by any override for the same key that makes a record raises on
   * the second one: the duplicate-name warning cannot format the value-less record.
   */
  lemma NullThenOverrideFails(d: Resolution, key: string, spec: Spec)
    requires Resolve(d, key, Null).Success?
    requires GenConfigObj(d.facts, key, spec).Success? && GenConfigObj(d.facts, key, spec).value.Some?
    ensures Resolve(Resolve(d, key, Null).value, key, spec) == Failure(MissingAttribute("value"))
  {
    var d1 := Resolve(d, key, Null).value;
    var held := Construct(key, None, Some(false), None).value;
    assert d1.facts == d.facts;
    assert d1.items.records[held.name] == held;
    assert GenConfigObj(d.facts, key, spec).value.value.name == held.name;
  }

  /** Storing an override keeps the collection well formed and never touches the fact table. */
  lemma ResolveKeepsFacts(d: Resolution, key: string, spec: Spec)
    requires d.items.Valid() && Resolve(d, key, spec).Success?
    ensures Resolve(d, key, spec).value.facts == d.facts
    ensures Resolve(d, key, spec).value.items.Valid()
  {
  }

  /** The records of a collection, as `__str__` joins them: each rendering followed by a newline. */
  function RenderKeys(records: map<string, Param>, keys: seq<string>): Result<string, Error>
    requires forall k :: k in keys ==> k in records
  {
    if keys == [] then Success("")
    else
      match RenderKeys(records, keys[..|keys| - 1])
      case Failure(e) => Failure(e)
      case Success(t) =>
        match Render(records[keys[|keys| - 1]])
        case Failure(e) => Failure(e)
        case Success(u) => Success(t + u + "\n")
  }

  /** `KernelDict.__str__`. */
  function RenderAll(c: Collection): Result<string, Error>
    requires c.Valid()
  {
    RenderKeys(c.records, c.order)
  }

  /** The dictionary renders exactly when every record under the listed names has a value. */
  lemma {:induction false} RenderKeysSucceedsIff(records: map<string, Param>, keys: seq<string>)
    requires forall k :: k in keys ==> k in records
    ensures RenderKeys(records, keys).Success? <==> forall k :: k in keys ==> records[k].value.Some?
  {
    if keys != [] {
      var init := keys[..|keys| - 1];
      RenderKeysSucceedsIff(records, init);
      assert forall k :: k in keys <==> k in init || k == keys[|keys| - 1];
    }
  }

  /** A record stored under a name outside `keys` does not change how `keys` render. */
  lemma {:induction false} RenderKeysFrame(records: map<string, Param>, keys: seq<string>, p: Param)
    requires forall k :: k in keys ==> k in records
    requires p.name !in keys
    ensures RenderKeys(records[p.name := p], keys) == RenderKeys(records, keys)
  {
    if keys != [] {
      RenderKeysFrame(records, keys[..|keys| - 1], p);
    }
  }

  /** Storing a record under a new name appends its rendering to the dictionary's text. */
  lemma RenderAfterNewName(c: Collection, p: Param)
    requires c.Valid() && p.name !in c.records
    ensures RenderAll(Store(c, p)) ==
      match RenderAll(c)
      case Failure(e) => Failure(e)
      case Success(t) =>
        match Render(p)
        case Failure(e) => Failure(e)
        case Success(u) => Success(t + u + "\n")
  {
    var s := Store(c, p);
    assert s.order[..|s.order| - 1] == c.order;
    RenderKeysFrame(c.records, c.order, p);
  }

  /** A failure in a prefix of the names is the failure of the whole rendering. */
  lemma {:induction false} RenderKeysPrefixFailure(records: map<string, Param>, keys: seq<string>, n: nat)
    requires forall k :: k in keys ==> k in records
    requires n <= |keys| && RenderKeys(records, keys[..n]).Failure?
    ensures RenderKeys(records, keys) == RenderKeys(records, keys[..n])
    decreases |keys| - n
  {
    if n < |keys| {
      assert keys[..n + 1][..n] == keys[..n];
      RenderKeysPrefixFailure(records, keys, n + 1);
    } else {
      assert keys[..n] == keys;
    }
  }

  /** Where template files live, relative to the working directory. */
  const TemplateDir: string := "templates"

  /** The file name of a template: `.yaml` is appended unless the name already ends with it. */
  function YamlFileName(name: string): (r: string)
    ensures EndsWith(r, ".yaml")
    ensures StartsWith(r, name)
  {
    if EndsWith(name, ".yaml") then name else name + ".yaml"
  }

  /** The suffix is added at most once: naming a template with or without it finds the same file. */
  lemma YamlFileNameIdempotent(name: string)
    ensures YamlFileName(YamlFileName(name)) == YamlFileName(name)
    ensures YamlFileName(name + ".yaml") == name + ".yaml"
  {
  }

  function TemplatePath(name: string): string {
    TemplateDir + "/" + YamlFileName(name)
  }

  /** The parsed content of each template file, by path: its overrides in file order. */
  type TemplateFiles = map<string, seq<(string, Spec)>>

  /** Every override of one file, in order; the first that raises aborts the rest. */
  function ResolveAll(d: Resolution, entries: seq<(string, Spec)>): Result<Resolution, Error>
    decreases |entries|
  {
    if entries == [] then Success(d)
    else
      match Resolve(d, entries[0].0, entries[0].1)
      case Failure(e) => Failure(e)
      case Success(d') => ResolveAll(d', entries[1..])
  }

  /** `load_yaml_template` for one name. */
  function LoadTemplate(d: Resolution, name: string, files: TemplateFiles): Result<Resolution, Error> {
    var path := TemplatePath(name);
    if path !in files then Failure(TemplateNotFound(path)) else ResolveAll(d, files[path])
  }

  /** The template names a `templates` entry carries: one string, or a list of them. */
  function TemplateNames(f: Fact): seq<string> {
    match f
    case Str(n) => [n]
    case List(ns) => ns
  }

  /** `load_yaml_template` over several names, one after the other. */
  function LoadTemplates(d: Resolution, names: seq<string>, files: TemplateFiles): Result<Resolution, Error>
    decreases |names|
  {
    if names == [] then Success(d)
    else
      match LoadTemplate(d, names[0], files)
      case Failure(e) => Failure(e)
      case Success(d') => LoadTemplates(d', names[1..], files)
  }

  /** `load_config` over the parsed configuration file: `templates` loads, any other key is a fact. */
  function Load(d: Resolution, pairs: seq<(string, Fact)>, files: TemplateFiles): Result<Resolution, Error>
    decreases |pairs|
  {
    if pairs == [] then Success(d)
    else if pairs[0].0 == "templates" then
      match LoadTemplates(d, TemplateNames(pairs[0].1), files)
      case Failure(e) => Failure(e)
      case Success(d') => Load(d', pairs[1..], files)
    else Load(d.(facts := d.facts[pairs[0].0 := pairs[0].1]), pairs[1..], files)
  }

  /**
   * The facts a configuration file sets: every key but `templates`, each key bound to the
   * value of its last occurrence (later pairs override earlier ones in the union).
   */
  function FactsOf(pairs: seq<(string, Fact)>): (m: map<string, Fact>)
    ensures "templates" !in m
    decreases |pairs|
  {
    if pairs == [] then map[]
    else
      var own := if pairs[0].0 == "templates" then map[] else map[pairs[0].0 := pairs[0].1];
      own + FactsOf(pairs[1..])
  }

  /** The fact table gets exactly the keys that occur in the file, `templates` apart. */
  lemma {:induction false} FactsOfKeys(pairs: seq<(string, Fact)>)
    ensures forall k :: k in FactsOf(pairs) <==> k != "templates" && exists i :: 0 <= i < |pairs| && pairs[i].0 == k
    decreases |pairs|
  {
    if pairs != [] {
      FactsOfKeys(pairs[1..]);
      assert forall i :: 1 <= i < |pairs| ==> pairs[i] == pairs[1..][i - 1];
    }
  }

  /**
   * A key's fact is the value of its last occurrence among the pairs. The pairs stand for the
   * items of a parsed mapping, which never repeat a key, so in the code every key has one
   * occurrence; the lemma is about the pair-sequence input and what it would do with repeats.
   */
  lemma {:induction false} FactsOfLastWins(pairs: seq<(string, Fact)>, i: nat)
    requires i < |pairs| && pairs[i].0 != "templates"
    requires forall j :: i < j < |pairs| ==> pairs[j].0 != pairs[i].0
    ensures pairs[i].0 in FactsOf(pairs) && FactsOf(pairs)[pairs[i].0] == pairs[i].1
    decreases |pairs|
  {
    if i > 0 {
      assert pairs[1..][i - 1] == pairs[i];
      FactsOfLastWins(pairs[1..], i - 1);
    } else {
      FactsOfKeys(pairs[1..]);
      assert forall j :: 0 <= j < |pairs| - 1 ==> pairs[1..][j] == pairs[j + 1];
    }
  }

  lemma {:induction false} ResolveAllKeepsFacts(d: Resolution, entries: seq<(string, Spec)>)
    requires d.items.Valid() && ResolveAll(d, entries).Success?
    ensures ResolveAll(d, entries).value.facts == d.facts
    ensures ResolveAll(d, entries).value.items.Valid()
    decreases |entries|
  {
    if entries != [] {
      ResolveKeepsFacts(d, entries[0].0, entries[0].1);
      ResolveAllKeepsFacts(Resolve(d, entries[0].0, entries[0].1).value, entries[1..]);
    }
  }

  lemma {:induction false} LoadTemplatesKeepsFacts(d: Resolution, names: seq<string>, files: TemplateFiles)
    requires d.items.Valid() && LoadTemplates(d, names, files).Success?
    ensures LoadTemplates(d, names, files).value.facts == d.facts
    ensures LoadTemplates(d, names, files).value.items.Valid()
    decreases |names|
  {
    if names != [] {
      ResolveAllKeepsFacts(d, files[TemplatePath(names[0])]);
      LoadTemplatesKeepsFacts(LoadTemplate(d, names[0], files).value, names[1..], files);
    }
  }

  /**
   * Loading routes every key but `templates` into the fact table, the last occurrence of a key
   * winning, and templates never write facts.
   */
  lemma {:induction false} LoadRoutesFacts(d: Resolution, pairs: seq<(string, Fact)>, files: TemplateFiles)
    requires d.items.Valid() && Load(d, pairs, files).Success?
    ensures Load(d, pairs, files).value.facts == d.facts + FactsOf(pairs)
    ensures Load(d, pairs, files).value.items.Valid()
    decreases |pairs|
  {
    if pairs != [] {
      var head := pairs[0];
      var rest := FactsOf(pairs[1..]);
      if head.0 == "templates" {
        assert FactsOf(pairs) == map[] + rest;
        LoadTemplatesKeepsFacts(d, TemplateNames(head.1), files);
        var d' := LoadTemplates(d, TemplateNames(head.1), files).value;
        assert Load(d, pairs, files) == Load(d', pairs[1..], files);
        LoadRoutesFacts(d', pairs[1..], files);
      } else {
        var own := map[head.0 := head.1];
        assert FactsOf(pairs) == own + rest;
        var d' := d.(facts := d.facts[head.0 := head.1]);
        assert Load(d, pairs, files) == Load(d', pairs[1..], files);
        assert d'.facts == d.facts + own;
        LoadRoutesFacts(d', pairs[1..], files);
        UnionAssociates(d.facts, own, rest);
      }
    }
  }

  lemma UnionAssociates<K, V>(a: map<K, V>, b: map<K, V>, c: map<K, V>)
    ensures (a + b) + c == a + (b + c)
  {
  }

  /** A configuration file without `templates` only sets facts: it cannot fail and adds no record. */
  lemma {:induction false} LoadWithoutTemplates(d: Resolution, pairs: seq<(string, Fact)>, files: TemplateFiles)
    requires forall i :: 0 <= i < |pairs| ==> pairs[i].0 != "templates"
    ensures Load(d, pairs, files).Success?
    ensures Load(d, pairs, files).value.items == d.items
    decreases |pairs|
  {
    if pairs != [] {
      LoadWithoutTemplates(d.(facts := d.facts[pairs[0].0 := pairs[0].1]), pairs[1..], files);
    }
  }

  /**
   * The dictionary, updated in place. `facts` is `config_values`; `order` and `records` are
   * the dictionary's own keys, in insertion order, and values.
   */
  class KernelDict {
    var facts: map<string, Fact>
    var order: seq<string>
    var records: map<string, Param>

    function Model(): Resolution
      reads this
    {
      Resolution(facts, Collection(order, records))
    }

    ghost predicate Valid()
      reads this
    {
      Collection(order, records).Valid()
    }

    /** `__init__` up to the file read: the given fact table and no records. */
    constructor (facts: map<string, Fact>)
      ensures Valid() && Model() == Resolution(facts, Empty)
    {
      this.facts := facts;
      order := [];
      records := map[];
    }

    /**
     * `update_value`: the duplicate-name warning reads the held record's value, then the record
     * is stored under its name, replacing any earlier one. The facts are untouched.
     */
    method UpdateValue(p: Param) returns (r: Outcome<Error>)
      requires Valid()
      modifies this
      ensures Valid() && facts == old(facts)
      ensures Follows(r, Update(old(Model()).items, p), Model().items)
      ensures r.Fail? ==> Model() == old(Model())
    {
      if p.name in records {
        if records[p.name].value.None? {
          return Fail(MissingAttribute("value"));
        }
      } else {
        order := order + [p.name];
      }
      records := records[p.name := p];
      return Pass;
    }

    /** `__setitem__`: when it raises, the dictionary is as it was. */
    method SetItem(key: string, spec: Spec) returns (r: Outcome<Error>)
      requires Valid()
      modifies this
      ensures Valid()
      ensures Follows(r, Resolve(old(Model()), key, spec), Model())
      ensures r.Fail? ==> Model() == old(Model())
    {
      var made := GenConfigObj(facts, key, spec);
      if made.Failure? {
        return Fail(made.error);
      }
      if made.value.Some? {
        r := UpdateValue(made.value.value);
        return;
      }
      return Pass;
    }

    /** `load_yaml_template` for one name: each override of the file stored in turn. */
    method LoadYamlTemplate(name: string, files: TemplateFiles) returns (r: Outcome<Error>)
      requires Valid()
      modifies this
      ensures Valid()
      ensures Follows(r, LoadTemplate(old(Model()), name, files), Model())
    {
      var path := TemplatePath(name);
      if path !in files {
        return Fail(TemplateNotFound(path));
      }
      var entries := files[path];
      for j := 0 to |entries|
        invariant Valid()
        invariant LoadTemplate(old(Model()), name, files) == ResolveAll(Model(), entries[j..])
      {
        assert entries[j..][1..] == entries[j + 1..];
        r := SetItem(entries[j].0, entries[j].1);
        if r.Fail? {
          return;
        }
      }
      return Pass;
    }

    /** The same call on a list of names, as the plural-handling decorator makes it: name by name. */
    method LoadYamlTemplates(names: seq<string>, files: TemplateFiles) returns (r: Outcome<Error>)
      requires Valid()
      modifies this
      ensures Valid()
      ensures Follows(r, LoadTemplates(old(Model()), names, files), Model())
    {
      for i := 0 to |names|
        invariant Valid()
        invariant LoadTemplates(old(Model()), names, files) == LoadTemplates(Model(), names[i..], files)
      {
        assert names[i..][1..] == names[i + 1..];
        r := LoadYamlTemplate(names[i], files);
        if r.Fail? {
          return;
        }
      }
      return Pass;
    }

    /** `load_config` over the pairs the configuration file holds, in file order. */
    method LoadConfig(pairs: seq<(string, Fact)>, files: TemplateFiles) returns (r: Outcome<Error>)
      requires Valid()
      modifies this
      ensures Valid()
      ensures Follows(r, Load(old(Model()), pairs, files), Model())
    {
      for i := 0 to |pairs|
        invariant Valid()
        invariant Load(old(Model()), pairs, files) == Load(Model(), pairs[i..], files)
      {
        assert pairs[i..][1..] == pairs[i + 1..];
        var (key, value) := pairs[i];
        if key == "templates" {
          r := LoadYamlTemplates(TemplateNames(value), files);
          if r.Fail? {
            return;
          }
        } else {
          facts := facts[key := value];
        }
      }
      return Pass;
    }

    /** `__str__`: every record rendered and followed by a newline, in insertion order. */
    method Str() returns (r: Result<string, Error>)
      requires Valid()
      ensures r == RenderAll(Model().items)
    {
      var out := "";
      for i := 0 to |order|
        invariant RenderKeys(records, order[..i]) == Success(out)
      {
        assert order[..i + 1][..i] == order[..i];
        var line := Render(records[order[i]]);
        if line.Failure? {
          RenderKeysPrefixFailure(records, order, i + 1);
          return Failure(line.error);
        }
        out := out + line.value + "\n";
      }
      assert order[..|order|] == order;
      return Success(out);
    }
  }
}
