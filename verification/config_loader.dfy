/**
 * The configuration checks and defaults: which fields a configuration
 * must hold, in which order a missing one is reported, and the defaults
 * filled in afterwards. Reading the file and expanding relative paths are
 * not modelled.
 */
module ConfigLoader {
  import opened Wrappers
  import opened Text
  import opened Assoc

  /** A parsed JSON value. */
  datatype Json =
    | JNull
    | JBool(b: bool)
    | JNum(n: int)
    | JStr(s: string)
    | JList(items: seq<Json>)
    | JObj(fields: Dict<string, Json>)

  type Config = Dict<string, Json>

  /** Why a configuration is rejected. */
  datatype ConfigError =
    | MissingField(field: string)
    | MissingSubfield(field: string, subfield: string)
    | NotAList
    | EmptyList
    | MissingHeader(header: string, sheet: Option<string>)
    | MissingSheets
    | TypeFailure   // a TypeError, AttributeError or KeyError: a value of a JSON kind the operation cannot take, or a missing key

  /** The text of the `ValueError` raised for each rejection. */
  function Message(e: ConfigError): string
  {
    match e
    case MissingField(f) => "Campo obrigatório ausente: " + f
    case MissingSubfield(f, s) => "Subcampo obrigatório ausente: " + f + "." + s
    case NotAList => "'colunas_para_validar' deve ser uma lista"
    case EmptyList => "'colunas_para_validar' não pode estar vazia"
    case MissingHeader(h, None) => "'" + h + "' ausente no mapeamento de fórmulas"
    case MissingHeader(h, Some(aba)) => "'" + h + "' ausente no mapeamento de fórmulas da aba " + aba
    case MissingSheets => "'abas' ausente na configuração multi_abas"
    case TypeFailure => "erro de tipo"
  }

  /** `required_fields`, in its order. */
  const RequiredFields: seq<(string, seq<string>)> := [
    ("arquivo_fonte_1", ["caminho", "coluna_chave"]),
    ("arquivo_fonte_2", ["caminho", "coluna_chave"]),
    ("arquivo_formulas", ["caminho", "colunas_para_carregar", "mapeamento_formulas"]),
    ("colunas_para_validar", []),
    ("regras_de_tolerancia", []),
    ("arquivo_saida", ["caminho"])
  ]

  // ---------------------------------------------------------------------
  // _validate_config

  /**
   * `is_multi_sheet` and `is_auto_discovery`; `.get('tipo')` on an
   * `arquivo_formulas` that is not an object fails.
   */
  function Flags(config: Config): Result<(bool, bool), ConfigError>
  {
    match Get(config, "arquivo_formulas")
    case Some(af) =>
      if !af.JObj? then Err(TypeFailure)
      else
        var tipo := Get(af.fields, "tipo");
        var tv := Get(config, "tipo_validacao");
        Ok((tipo == Some(JStr("multi_abas")) || tv == Some(JStr("multi_abas")),
            tipo == Some(JStr("auto_discovery")) || tv == Some(JStr("auto_discovery"))))
    case None =>
      var tv := Get(config, "tipo_validacao");
      Ok((tv == Some(JStr("multi_abas")), tv == Some(JStr("auto_discovery"))))
  }

  /** The subfield check that a multi-sheet or auto-discovery configuration skips. */
  predicate Skipped(skip: bool, field: string, sub: string)
  {
    skip && field == "arquivo_formulas" && sub in ["colunas_para_carregar", "mapeamento_formulas"]
  }

  /** The subfield loop of one field: the first missing subfield is reported. */
  function CheckSubfields(field: string, obj: Dict<string, Json>, subs: seq<string>, skip: bool): (r: Result<(), ConfigError>)
    ensures r.Ok? <==> forall j :: 0 <= j < |subs| ==> Skipped(skip, field, subs[j]) || HasKey(obj, subs[j])
    ensures r.Err? ==> exists j :: 0 <= j < |subs| && !Skipped(skip, field, subs[j]) && !HasKey(obj, subs[j])
                                   && r.error == MissingSubfield(field, subs[j])
  {
    if subs == [] then Ok(())
    else if !Skipped(skip, field, subs[0]) && !HasKey(obj, subs[0]) then Err(MissingSubfield(field, subs[0]))
    else
      var r := CheckSubfields(field, obj, subs[1..], skip);
      assert forall j :: 1 <= j < |subs| ==> subs[j] == subs[1..][j - 1];
      if r.Err? then
        var j :| 0 <= j < |subs[1..]| && !Skipped(skip, field, subs[1..][j]) && !HasKey(obj, subs[1..][j])
                 && r.error == MissingSubfield(field, subs[1..][j]);
        assert subs[j + 1] == subs[1..][j];
        r
      else r
  }

  /** One required field and its subfields are in place. */
  predicate FieldComplete(config: Config, entry: (string, seq<string>), skip: bool)
  {
    HasKey(config, entry.0)
    && (entry.1 != [] && Get(config, entry.0).value.JObj? ==>
          forall j :: 0 <= j < |entry.1| ==> Skipped(skip, entry.0, entry.1[j]) || HasKey(Get(config, entry.0).value.fields, entry.1[j]))
  }

  /** The field loop: the first missing field, or missing subfield of an object field, is reported. */
  function CheckFields(config: Config, fields: seq<(string, seq<string>)>, skip: bool): (r: Result<(), ConfigError>)
    ensures r.Ok? <==> forall i :: 0 <= i < |fields| ==> FieldComplete(config, fields[i], skip)
  {
    if fields == [] then Ok(())
    else
      var (field, subs) := fields[0];
      var rest := CheckFields(config, fields[1..], skip);
      assert forall i :: 1 <= i < |fields| ==> fields[i] == fields[1..][i - 1];
      match Get(config, field)
      case None => Err(MissingField(field))
      case Some(v) =>
        if subs != [] && v.JObj? then
          var r := CheckSubfields(field, v.fields, subs, skip);
          if r.Err? then r else rest
        else rest
  }

  /**
   * Python's `key in v` on a JSON value: a key of an object, an item of a
   * list, a substring of a string; null, booleans and numbers raise.
   */
  function In(key: string, v: Json): Result<bool, ConfigError>
  {
    match v
    case JObj(fields) => Ok(HasKey(fields, key))
    case JList(items) => Ok(JStr(key) in items)
    case JStr(s) => Ok(Contains(s, key))
    case _ => Err(TypeFailure)
  }

  /**
   * `for x in v` on a JSON value: the keys of an object, the items of a
   * list, the characters of a string; null, booleans and numbers raise.
   */
  function Iterated(v: Json): Result<seq<Json>, ConfigError>
  {
    match v
    case JObj(fields) => Ok(seq(|fields|, k requires 0 <= k < |fields| => JStr(fields[k].0)))
    case JList(items) => Ok(items)
    case JStr(s) => Ok(seq(|s|, k requires 0 <= k < |s| => JStr([s[k]])))
    case _ => Err(TypeFailure)
  }

  /** Both `in` tests of one mapping hold. */
  predicate MappingComplete(mapping: Json)
  {
    In("header_resultado", mapping) == Ok(true) && In("header_traducao", mapping) == Ok(true)
  }

  /**
   * Every element `for mapping in m` visits passes both tests: each item of
   * a list, each key of an object, each one-character string of a string.
   */
  predicate MappingsComplete(m: Json)
  {
    match m
    case JList(items) => forall k :: 0 <= k < |items| ==> MappingComplete(items[k])
    case JObj(fields) => forall k :: 0 <= k < |fields| ==> MappingComplete(JStr(fields[k].0))
    case JStr(s) => forall k :: 0 <= k < |s| ==> MappingComplete(JStr([s[k]]))
    case _ => false
  }

  /** The loop over the mappings: `header_resultado` is tested before `header_traducao`. */
  function CheckMappingList(items: seq<Json>, sheet: Option<string>): (r: Result<(), ConfigError>)
    ensures r.Ok? <==> forall k :: 0 <= k < |items| ==> MappingComplete(items[k])
    ensures r.Err? ==> r.error in {MissingHeader("header_resultado", sheet), MissingHeader("header_traducao", sheet), TypeFailure}
    ensures r == Err(TypeFailure) ==> exists k :: 0 <= k < |items| && In("header_resultado", items[k]).Err?
  {
    if items == [] then Ok(())
    else
      assert forall k :: 1 <= k < |items| ==> items[k] == items[1..][k - 1];
      match In("header_resultado", items[0])
      case Err(e) => Err(e)
      case Ok(false) => Err(MissingHeader("header_resultado", sheet))
      case Ok(true) =>
        match In("header_traducao", items[0])
        case Err(e) => assert false; Err(e)
        case Ok(false) => Err(MissingHeader("header_traducao", sheet))
        case Ok(true) =>
          var r := CheckMappingList(items[1..], sheet);
          if r == Err(TypeFailure) then
            var k :| 0 <= k < |items[1..]| && In("header_resultado", items[1..][k]).Err?;
            assert items[k + 1] == items[1..][k];
            r
          else r
  }

  /** `for mapping in ...['mapeamento_formulas']`: the loop over whatever the value iterates. */
  function CheckMappings(m: Json, sheet: Option<string>): (r: Result<(), ConfigError>)
    ensures r.Ok? <==> MappingsComplete(m)
    ensures r.Err? ==> r.error in {MissingHeader("header_resultado", sheet), MissingHeader("header_traducao", sheet), TypeFailure}
  {
    match Iterated(m)
    case Err(e) => Err(e)
    case Ok(xs) =>
      assert m.JObj? ==> |xs| == |m.fields| && forall k :: 0 <= k < |xs| ==> xs[k] == JStr(m.fields[k].0);
      assert m.JStr? ==> |xs| == |m.s| && forall k :: 0 <= k < |xs| ==> xs[k] == JStr([m.s[k]]);
      CheckMappingList(xs, sheet)
  }

  /** A text longer than `s` is not inside `s`. */
  lemma {:induction false} ContainsLength(s: string, sub: string)
    requires Contains(s, sub)
    ensures |sub| <= |s|
    decreases |s|
  {
    if !StartsWith(s, sub) {
      ContainsLength(s[1..], sub);
    }
  }

  /**
   * A string of mappings passes only when it is empty: its elements are
   * single characters, and no header name fits in one.
   */
  lemma StringMappings(s: string)
    ensures MappingsComplete(JStr(s)) <==> s == ""
  {
    if s != "" {
      if Contains([s[0]], "header_resultado") {
        ContainsLength([s[0]], "header_resultado");
      }
      assert !MappingComplete(JStr([s[0]]));
    }
  }

  /**
   * One sheet of a multi-sheet configuration passes: an object whose
   * mappings, if any, are complete; a list that does not hold the text
   * "mapeamento_formulas"; a string that does not contain it. Indexing a
   * list or a string by that text raises, and so does `in` on anything else.
   */
  predicate SheetComplete(cfg: Json)
  {
    match cfg
    case JObj(f) => HasKey(f, "mapeamento_formulas") ==> MappingsComplete(Get(f, "mapeamento_formulas").value)
    case JList(items) => JStr("mapeamento_formulas") !in items
    case JStr(s) => !Contains(s, "mapeamento_formulas")
    case _ => false
  }

  predicate SheetsComplete(abas: Dict<string, Json>)
  {
    forall i :: 0 <= i < |abas| ==> SheetComplete(abas[i].1)
  }

  /** The loop over `abas.items()`: errors name the sheet. */
  function CheckSheets(abas: Dict<string, Json>): (r: Result<(), ConfigError>)
    ensures r.Ok? <==> SheetsComplete(abas)
    ensures r.Err? ==> r.error == TypeFailure || exists i :: 0 <= i < |abas| && r.error.MissingHeader? && r.error.sheet == Some(abas[i].0)
  {
    if abas == [] then Ok(())
    else
      var (name, cfg) := abas[0];
      assert forall i :: 1 <= i < |abas| ==> abas[i] == abas[1..][i - 1];
      var rest := CheckSheets(abas[1..]);
      assert rest.Err? && rest.error != TypeFailure ==> exists i :: 0 <= i < |abas| && rest.error.MissingHeader? && rest.error.sheet == Some(abas[i].0);
      match In("mapeamento_formulas", cfg)
      case Err(e) => Err(e)
      case Ok(false) => rest
      case Ok(true) =>
        if !cfg.JObj? then Err(TypeFailure)
        else
          var r := CheckMappings(Get(cfg.fields, "mapeamento_formulas").value, Some(name));
          if r.Err? then r else rest
  }

  /** An empty object or string of mappings iterates nothing and passes. */
  lemma EmptyMappingsPass(sheet: Option<string>)
    ensures CheckMappings(JObj([]), sheet).Ok? && CheckMappings(JStr(""), sheet).Ok?
  {
  }

  /** A mapping that is a list of the two header names passes both `in` tests. */
  lemma ListMappingPasses(mapping: Json, sheet: Option<string>)
    requires mapping == JList([JStr("header_resultado"), JStr("header_traducao")])
    ensures CheckMappings(JList([mapping]), sheet).Ok?
  {
    assert MappingComplete(mapping);
    assert [mapping][0] == mapping;
    assert MappingsComplete(JList([mapping]));
  }

  /** A mapping that is a string holding both header names, whatever lies between them, passes both `in` tests. */
  lemma StringMappingPasses(between: string, sheet: Option<string>)
    ensures CheckMappings(JList([JStr("header_resultado" + between + "header_traducao")]), sheet).Ok?
  {
    var a, b := "header_resultado", "header_traducao";
    var both := a + between + b;
    ContainsAt(both, 0, |a|);
    assert both[0..|a|] == a;
    ContainsAt(both, |a| + |between|, |both|);
    assert both[|a| + |between|..|both|] == b;
    assert MappingComplete(JStr(both));
    assert [JStr(both)][0] == JStr(both);
    assert MappingsComplete(JList([JStr(both)]));
  }

  /**
   * A sheet configuration that is a string without "mapeamento_formulas"
   * passes; a list holding that text raises when it is indexed by it.
   */
  lemma SheetShapes(text: string)
    requires text == "sem mapeamento"
    ensures CheckSheets([("Dados", JStr(text))]).Ok?
    ensures CheckSheets([("Dados", JList([JStr("mapeamento_formulas")]))]) == Err(TypeFailure)
  {
    if Contains(text, "mapeamento_formulas") {
      ContainsLength(text, "mapeamento_formulas");
    }
    assert SheetComplete(JStr(text));
  }

  /** `_validate_config(config)`: `Ok` when it returns, `Err` with the first problem it raises. */
  function ValidateConfig(config: Config): Result<(), ConfigError>
  {
    match Flags(config)
    case Err(e) => Err(e)
    case Ok((multi, auto)) =>
      var req := CheckFields(config, RequiredFields, multi || auto);
      if req.Err? then req
      else
        assert FieldComplete(config, RequiredFields[2], multi || auto) && FieldComplete(config, RequiredFields[3], multi || auto);
        var cols := Get(config, "colunas_para_validar").value;
        var af := Get(config, "arquivo_formulas").value;
        if !cols.JList? then Err(NotAList)
        else if cols.items == [] then Err(EmptyList)
        else
          var mappings := if !multi && HasKey(af.fields, "mapeamento_formulas")
                          then CheckMappings(Get(af.fields, "mapeamento_formulas").value, None)
                          else Ok(());
          if mappings.Err? then mappings
          else if multi && !auto then
            if !HasKey(af.fields, "abas") then Err(MissingSheets)
            else
              var abas := Get(af.fields, "abas").value;
              if !abas.JObj? then Err(TypeFailure) else CheckSheets(abas.fields)
          else Ok(())
  }

  /** A configuration `_validate_config` accepts, stated without its order of checks. */
  predicate ValidConfig(config: Config)
  {
    Flags(config).Ok?
    && var (multi, auto) := Flags(config).value;
    (forall i :: 0 <= i < |RequiredFields| ==> FieldComplete(config, RequiredFields[i], multi || auto))
    && HasKey(config, "colunas_para_validar") && HasKey(config, "arquivo_formulas")
    && var cols := Get(config, "colunas_para_validar").value;
    var af := Get(config, "arquivo_formulas").value;
    cols.JList? && cols.items != []
    && (!multi && HasKey(af.fields, "mapeamento_formulas") ==> MappingsComplete(Get(af.fields, "mapeamento_formulas").value))
    && (multi && !auto ==>
          HasKey(af.fields, "abas") && Get(af.fields, "abas").value.JObj?
          && SheetsComplete(Get(af.fields, "abas").value.fields))
  }

  /** The validation accepts exactly the valid configurations. */
  lemma ValidateConfigSpec(config: Config)
    ensures ValidateConfig(config).Ok? <==> ValidConfig(config)
  {
    if Flags(config).Ok? {
      var (multi, auto) := Flags(config).value;
      if CheckFields(config, RequiredFields, multi || auto).Ok? {
        assert FieldComplete(config, RequiredFields[2], multi || auto);
        assert FieldComplete(config, RequiredFields[3], multi || auto);
      }
    }
  }

  /**
   * The fields are checked in order: when the earlier required fields are
   * complete and field `i` is absent, the error names field `i`.
   */
  lemma MissingFieldNamed(config: Config, i: nat)
    requires Flags(config).Ok? && i < |RequiredFields|
    requires forall j :: 0 <= j < i ==> FieldComplete(config, RequiredFields[j], Flags(config).value.0 || Flags(config).value.1)
    requires !HasKey(config, RequiredFields[i].0)
    ensures ValidateConfig(config) == Err(MissingField(RequiredFields[i].0))
  {
    var skip := Flags(config).value.0 || Flags(config).value.1;
    FirstMissing(config, RequiredFields, skip, i);
  }

  lemma {:induction false} FirstMissing(config: Config, fields: seq<(string, seq<string>)>, skip: bool, i: nat)
    requires i < |fields|
    requires forall j :: 0 <= j < i ==> FieldComplete(config, fields[j], skip)
    requires !HasKey(config, fields[i].0)
    ensures CheckFields(config, fields, skip) == Err(MissingField(fields[i].0))
  {
    if i > 0 {
      assert FieldComplete(config, fields[0], skip);
      forall j | 0 <= j < i - 1 ensures FieldComplete(config, fields[1..][j], skip) {
        assert fields[1..][j] == fields[j + 1];
      }
      FirstMissing(config, fields[1..], skip, i - 1);
      var v := Get(config, fields[0].0).value;
      if fields[0].1 != [] && v.JObj? {
        assert CheckSubfields(fields[0].0, v.fields, fields[0].1, skip).Ok?;
      }
    }
  }

  /**
   * A multi-sheet or auto-discovery configuration does not need the formula
   * file's column list and mapping; a plain one does.
   */
  lemma FormulaSubfieldsSkipped(config: Config)
    requires Flags(config).Ok?
    ensures var skip := Flags(config).value.0 || Flags(config).value.1;
            FieldComplete(config, RequiredFields[2], skip)
            <==> HasKey(config, "arquivo_formulas")
                 && HasKey(Get(config, "arquivo_formulas").value.fields, "caminho")
                 && (!skip ==> HasKey(Get(config, "arquivo_formulas").value.fields, "colunas_para_carregar")
                               && HasKey(Get(config, "arquivo_formulas").value.fields, "mapeamento_formulas"))
  {
    var skip := Flags(config).value.0 || Flags(config).value.1;
    var entry := RequiredFields[2];
    assert entry == ("arquivo_formulas", ["caminho", "colunas_para_carregar", "mapeamento_formulas"]);
    assert entry.1[0] == "caminho" && entry.1[1] == "colunas_para_carregar" && entry.1[2] == "mapeamento_formulas";
    assert !Skipped(skip, entry.0, "caminho");
    assert Skipped(skip, entry.0, "colunas_para_carregar") <==> skip;
    assert Skipped(skip, entry.0, "mapeamento_formulas") <==> skip;
  }

  // ---------------------------------------------------------------------
  // _apply_defaults

  /** `{'tipo': 'exata'}`. */
  const ExactRule: Json := JObj([("tipo", JStr("exata"))])

  /**
   * The default tolerance rule, added when `'default' not in` the rules. The
   * assignment needs an object; a list or string that already holds
   * "default" is left as it is.
   */
  function WithDefaultRule(config: Config): Result<Config, ConfigError>
  {
    match Get(config, "regras_de_tolerancia")
    case None => Err(TypeFailure)
    case Some(rules) =>
      match In("default", rules)
      case Err(e) => Err(e)
      case Ok(true) => Ok(config)
      case Ok(false) =>
        if rules.JObj? then Ok(Put(config, "regras_de_tolerancia", JObj(Put(rules.fields, "default", ExactRule))))
        else Err(TypeFailure)
  }

  /** `aba_planilha = None` for a source file whose path ends with `.csv`, in any case. */
  function WithCsvSheet(config: Config, key: string): Result<Config, ConfigError>
  {
    var file := Get(config, key);
    if !(file.Some? && file.value.JObj?) then Err(TypeFailure)
    else
      var f := file.value.fields;
      var path := Get(f, "caminho");
      if !(path.Some? && path.value.JStr?) then Err(TypeFailure)
      else if EndsWith(LowerStr(path.value.s), ".csv") then Ok(Put(config, key, JObj(Put(f, "aba_planilha", JNull))))
      else Ok(config)
  }

  /** One source file's step, skipped once a step has failed. */
  function CsvStep(r: Result<Config, ConfigError>, key: string): Result<Config, ConfigError>
  {
    if r.Err? then r else WithCsvSheet(r.value, key)
  }

  /** The steps of the given source files, in order. */
  function CsvSteps(r: Result<Config, ConfigError>, keys: seq<string>): Result<Config, ConfigError>
  {
    if keys == [] then r else CsvStep(CsvSteps(r, keys[..|keys| - 1]), keys[|keys| - 1])
  }

  /** The two source files whose sheet is cleared for CSV paths. */
  const SourceFiles: seq<string> := ["arquivo_fonte_1", "arquivo_fonte_2"]

  /** `_apply_defaults(config)`. */
  function Defaulted(config: Config): Result<Config, ConfigError>
  {
    CsvSteps(WithDefaultRule(config), SourceFiles)
  }

  /** A failed step fails the whole loop with its error. */
  lemma {:induction false} CsvStepsFail(r: Result<Config, ConfigError>, keys: seq<string>, j: nat)
    requires j <= |keys| && CsvSteps(r, keys[..j]).Err?
    ensures CsvSteps(r, keys) == CsvSteps(r, keys[..j])
    decreases |keys| - j
  {
    if j < |keys| {
      assert keys[..j + 1][..j] == keys[..j];
      CsvStepsFail(r, keys, j + 1);
    } else {
      assert keys[..j] == keys;
    }
  }

  /** The first statement of `_apply_defaults`: add the default rule when `'default' not in` the rules. */
  method AddDefaultRule(config: Config) returns (r: Result<Config, ConfigError>)
    ensures r == WithDefaultRule(config)
  {
    var rules := Get(config, "regras_de_tolerancia");
    if rules.None? {
      return Err(TypeFailure);
    }
    var has := In("default", rules.value);
    if has.Err? || (!has.value && !rules.value.JObj?) {
      return Err(TypeFailure);
    }
    r := Ok(config);
    if !has.value {
      r := Ok(Put(config, "regras_de_tolerancia", JObj(Put(rules.value.fields, "default", ExactRule))));
    }
  }

  /** `_apply_defaults`: the default rule, then the loop over the two source files. */
  method ApplyDefaults(config: Config) returns (r: Result<Config, ConfigError>)
    ensures r == Defaulted(config)
  {
    var first := AddDefaultRule(config);
    if first.Err? {
      assert SourceFiles[..0] == [];
      CsvStepsFail(first, SourceFiles, 0);
      return first;
    }
    var c := first.value;
    for k := 0 to |SourceFiles|
      invariant Ok(c) == CsvSteps(first, SourceFiles[..k])
    {
      ghost var before := c;
      assert SourceFiles[..k + 1][..k] == SourceFiles[..k];
      assert CsvSteps(first, SourceFiles[..k + 1]) == WithCsvSheet(before, SourceFiles[k]);
      var key := SourceFiles[k];
      var f := Get(c, key);
      if !(f.Some? && f.value.JObj?) {
        CsvStepsFail(first, SourceFiles, k + 1);
        return Err(TypeFailure);
      }
      var path := Get(f.value.fields, "caminho");
      if !(path.Some? && path.value.JStr?) {
        CsvStepsFail(first, SourceFiles, k + 1);
        return Err(TypeFailure);
      }
      if EndsWith(LowerStr(path.value.s), ".csv") {
        c := Put(c, key, JObj(Put(f.value.fields, "aba_planilha", JNull)));
      }
    }
    assert SourceFiles[..|SourceFiles|] == SourceFiles;
    r := Ok(c);
  }

  /** Rules given as a list holding "default" pass the test and are kept as they are. */
  lemma DefaultListKept(config: Config)
    requires Get(config, "regras_de_tolerancia") == Some(JList([JStr("default")]))
    ensures WithDefaultRule(config) == Ok(config)
    ensures HasDefault(config)
  {
  }

  /** The loop of the source files, spelled out. */
  lemma DefaultedSteps(config: Config)
    ensures Defaulted(config)
            == CsvStep(CsvStep(WithDefaultRule(config), "arquivo_fonte_1"), "arquivo_fonte_2")
  {
    var r := WithDefaultRule(config);
    var one := SourceFiles[..1];
    assert one == ["arquivo_fonte_1"] && one[..0] == [];
    assert CsvSteps(r, one[..0]) == r;
    assert CsvSteps(r, one) == CsvStep(r, "arquivo_fonte_1");
    assert SourceFiles[..|SourceFiles| - 1] == one;
    assert SourceFiles[|SourceFiles| - 1] == "arquivo_fonte_2";
  }

  /** `'default' in` the tolerance rules holds. */
  predicate HasDefault(c: Config)
  {
    var rules := Get(c, "regras_de_tolerancia");
    rules.Some? && In("default", rules.value) == Ok(true)
  }

  /** Source file `key` is an object with a text path, whose sheet is None when the path is a CSV one. */
  predicate Settled(c: Config, key: string)
  {
    var file := Get(c, key);
    file.Some? && file.value.JObj?
    && var path := Get(file.value.fields, "caminho");
    path.Some? && path.value.JStr?
    && (EndsWith(LowerStr(path.value.s), ".csv") ==> Get(file.value.fields, "aba_planilha") == Some(JNull))
  }

  /** After a successful step for `key`, only `key` may differ, and `key` is settled. */
  lemma CsvSheetEffect(c: Config, key: string, other: string)
    requires WithCsvSheet(c, key).Ok?
    ensures Settled(WithCsvSheet(c, key).value, key)
    ensures other != key ==> Get(WithCsvSheet(c, key).value, other) == Get(c, other)
  {
    var f := Get(c, key).value.fields;
    var f2 := Put(f, "aba_planilha", JNull);
    GetPutAny(c, key, JObj(f2), key);
    GetPutAny(c, key, JObj(f2), other);
    GetPutAny(f, "aba_planilha", JNull, "caminho");
    GetPutAny(f, "aba_planilha", JNull, "aba_planilha");
  }

  /** A settled file is left as it is. */
  lemma SettledFixed(c: Config, key: string)
    requires Settled(c, key)
    ensures WithCsvSheet(c, key) == Ok(c)
  {
    var f := Get(c, key).value.fields;
    if EndsWith(LowerStr(Get(f, "caminho").value.s), ".csv") {
      PutSame(f, "aba_planilha", JNull);
      PutSame(c, key, JObj(f));
    }
  }

  /** After the default rule step the rules hold a default, and nothing else changed elsewhere. */
  lemma DefaultRuleEffect(c: Config, other: string)
    requires WithDefaultRule(c).Ok?
    ensures HasDefault(WithDefaultRule(c).value)
    ensures other != "regras_de_tolerancia" ==> Get(WithDefaultRule(c).value, other) == Get(c, other)
  {
    var rules := Get(c, "regras_de_tolerancia").value;
    if In("default", rules) == Ok(false) {
      var r2 := Put(rules.fields, "default", ExactRule);
      GetPutAny(c, "regras_de_tolerancia", JObj(r2), "regras_de_tolerancia");
      GetPutAny(c, "regras_de_tolerancia", JObj(r2), other);
    }
  }

  /** Applying the defaults to a configuration that already has them changes nothing. */
  lemma {:induction false} DefaultedIdempotent(config: Config)
    requires Defaulted(config).Ok?
    ensures Defaulted(Defaulted(config).value) == Defaulted(config)
  {
    DefaultedSteps(config);
    var c1 := WithDefaultRule(config).value;
    var c2 := WithCsvSheet(c1, "arquivo_fonte_1").value;
    var c := WithCsvSheet(c2, "arquivo_fonte_2").value;
    DefaultRuleEffect(config, "arquivo_fonte_1");
    CsvSheetEffect(c1, "arquivo_fonte_1", "regras_de_tolerancia");
    CsvSheetEffect(c2, "arquivo_fonte_2", "regras_de_tolerancia");
    CsvSheetEffect(c2, "arquivo_fonte_2", "arquivo_fonte_1");
    assert HasDefault(c2) && HasDefault(c);
    assert Settled(c, "arquivo_fonte_1") && Settled(c, "arquivo_fonte_2");
    DefaultedSteps(c);
    assert WithDefaultRule(c) == Ok(c);
    SettledFixed(c, "arquivo_fonte_1");
    SettledFixed(c, "arquivo_fonte_2");
  }

  /** Source file `key` is an object with a text path. */
  predicate HasTextPath(c: Config, key: string)
  {
    var file := Get(c, key);
    file.Some? && file.value.JObj?
    && var path := Get(file.value.fields, "caminho");
    path.Some? && path.value.JStr?
  }

  /** One source file's step succeeds exactly when that file is an object with a text path. */
  lemma CsvSheetOk(c: Config, key: string)
    ensures WithCsvSheet(c, key).Ok? <==> HasTextPath(c, key)
  {
  }

  /** The defaults succeed exactly when the rule step and both source file steps can succeed. */
  lemma DefaultedOkSteps(config: Config)
    ensures Defaulted(config).Ok? <==>
      WithDefaultRule(config).Ok? && HasTextPath(config, "arquivo_fonte_1") && HasTextPath(config, "arquivo_fonte_2")
  {
    DefaultedSteps(config);
    var r := WithDefaultRule(config);
    if r.Ok? {
      var c1 := r.value;
      DefaultRuleEffect(config, "arquivo_fonte_1");
      DefaultRuleEffect(config, "arquivo_fonte_2");
      CsvSheetOk(c1, "arquivo_fonte_1");
      var r2 := WithCsvSheet(c1, "arquivo_fonte_1");
      if r2.Ok? {
        CsvSheetEffect(c1, "arquivo_fonte_1", "arquivo_fonte_2");
        CsvSheetOk(r2.value, "arquivo_fonte_2");
      }
    }
  }

  /**
   * The defaults succeed exactly when the rules are an object, a list
   * holding "default" or a string containing it, and both source files are
   * objects with a text path.
   */
  lemma DefaultedOk(config: Config)
    ensures Defaulted(config).Ok? <==>
      Get(config, "regras_de_tolerancia").Some?
      && (var rules := Get(config, "regras_de_tolerancia").value;
          rules.JObj? || (rules.JList? && JStr("default") in rules.items) || (rules.JStr? && Contains(rules.s, "default")))
      && forall key :: key in SourceFiles ==> HasTextPath(config, key)
  {
    assert forall key :: key in SourceFiles <==> key == "arquivo_fonte_1" || key == "arquivo_fonte_2";
    DefaultedOkSteps(config);
    DefaultRuleOk(config);
  }

  /** The default rule step succeeds exactly when the rules are an object, or a list or string in which `in` finds "default". */
  lemma DefaultRuleOk(config: Config)
    ensures WithDefaultRule(config).Ok? <==>
      Get(config, "regras_de_tolerancia").Some?
      && (var rules := Get(config, "regras_de_tolerancia").value;
          rules.JObj? || (rules.JList? && JStr("default") in rules.items) || (rules.JStr? && Contains(rules.s, "default")))
  {
    var g := Get(config, "regras_de_tolerancia");
    if g.Some? {
      var rules := g.value;
      match rules
      case JObj(_) =>
      case JList(items) => assert In("default", rules) == Ok(JStr("default") in items);
      case JStr(t) => assert In("default", rules) == Ok(Contains(t, "default"));
      case _ => assert In("default", rules).Err?;
    }
  }

  /**
   * After successful defaults the rules hold a default, both source files
   * are settled, and every other field is unchanged.
   */
  lemma DefaultedSpec(config: Config, other: string)
    requires Defaulted(config).Ok?
    ensures HasDefault(Defaulted(config).value)
    ensures Settled(Defaulted(config).value, "arquivo_fonte_1") && Settled(Defaulted(config).value, "arquivo_fonte_2")
    ensures other !in ["regras_de_tolerancia", "arquivo_fonte_1", "arquivo_fonte_2"] ==>
              Get(Defaulted(config).value, other) == Get(config, other)
  {
    DefaultedSteps(config);
    var c1 := WithDefaultRule(config).value;
    var c2 := WithCsvSheet(c1, "arquivo_fonte_1").value;
    DefaultRuleEffect(config, other);
    CsvSheetEffect(c1, "arquivo_fonte_1", "regras_de_tolerancia");
    CsvSheetEffect(c1, "arquivo_fonte_1", other);
    CsvSheetEffect(c2, "arquivo_fonte_2", "regras_de_tolerancia");
    CsvSheetEffect(c2, "arquivo_fonte_2", "arquivo_fonte_1");
    CsvSheetEffect(c2, "arquivo_fonte_2", other);
  }

}
