/**
 * The fixed registry of checks: the classes of `ALL_CHECKS` in their order,
 * a value that holds one instance of any modelled check class, and
 * `get_all_checks`, which instantiates them and hands each the configuration
 * when there is one.
 */
module Registry {
  import opened Wrappers
  import opened Config
  import opened Models
  import opened Base
  import SectionPresence
  import SectionNumbering
  import PageNumbering
  import Tables
  import Figures
  import Formulas
  import Appendices
  import LegacyNumbering

  /** The classes listed in `ALL_CHECKS`. */
  datatype CheckKind =
    | SectionKind | SectionNumberingKind | PageNumberingKind | TableKind
    | FigureKind | FormulaKind | AppendixKind | FormatKind

  /** `ALL_CHECKS`, in its order. */
  const AllChecks: seq<CheckKind> :=
    [SectionKind, SectionNumberingKind, PageNumberingKind, TableKind,
     FigureKind, FormulaKind, AppendixKind, FormatKind]

  /** The `check_id` each class passes to its base constructor. */
  function Id(k: CheckKind): string {
    match k
    case SectionKind => "required_sections"
    case SectionNumberingKind => "section_numbering"
    case PageNumberingKind => "page_numbering"
    case TableKind => "table_format"
    case FigureKind => "figure_format"
    case FormulaKind => "formulas"
    case AppendixKind => "appendices"
    case FormatKind => "required_format"
  }

  /** The `check_name` each class passes to its base constructor. */
  function Name(k: CheckKind): string {
    match k
    case SectionKind => "Наличие и порядок разделов"
    case SectionNumberingKind => "Нумерация разделов и подразделов"
    case PageNumberingKind => "Нумерация страниц"
    case TableKind => "Проверка оформления таблиц"
    case FigureKind => "Проверка оформления рисунков"
    case FormulaKind => "Оформление формул"
    case AppendixKind => "Оформление приложений"
    case FormatKind => "Проверка формата файла"
  }

  /** No two classes share an id, so a report entry names its check. */
  lemma IdsDistinct(k: CheckKind, l: CheckKind)
    requires k != l
    ensures Id(k) != Id(l)
  {
    if |Id(k)| == |Id(l)| {
      assert Id(k)[0] != Id(l)[0];
    }
  }

  /** Every class appears in the registry exactly once. */
  lemma RegistryDistinct()
    ensures |AllChecks| == 8
    ensures forall i, j :: 0 <= i < j < |AllChecks| ==> AllChecks[i] != AllChecks[j]
  {
  }

  /** The configuration `get_all_checks` may hand over: the table and appendix `set_rules` index into mappings. */
  predicate Accepted(config: Value) {
    !Truthy(config) || (Tables.AcceptsRules(config) && Appendices.AcceptsRules(config))
  }

  /** One instance of a modelled check class; the old page-numbering class is not in the registry. */
  datatype Check =
    | SectionRule(section: SectionPresence.SectionCheck)
    | SectionNumberingRule(numbering: SectionNumbering.SectionNumberingCheck)
    | PageNumberingRule(pages: PageNumbering.PageNumberingCheck)
    | TableRule(table: Tables.TableCheck)
    | FigureRule(figure: Figures.FigureCheck)
    | FormulaRule(formula: Formulas.FormulaCheck)
    | AppendixRule(appendix: Appendices.AppendixCheck)
    | LegacyPageNumberingRule(legacy: LegacyNumbering.PageNumberingCheck)
  {
    /** The part every check inherits. */
    function Base(): BaseCheck {
      match this
      case SectionRule(c) => c.base
      case SectionNumberingRule(c) => c.base
      case PageNumberingRule(c) => c.base
      case TableRule(c) => c.base
      case FigureRule(c) => c.base
      case FormulaRule(c) => c.base
      case AppendixRule(c) => c.base
      case LegacyPageNumberingRule(c) => c.base
    }

    /** The objects the instance consists of. */
    function Footprint(): set<object> {
      match this
      case SectionRule(c) => {c, c.base}
      case SectionNumberingRule(c) => {c, c.base}
      case PageNumberingRule(c) => {c, c.base}
      case TableRule(c) => {c, c.base}
      case FigureRule(c) => {c, c.base}
      case FormulaRule(c) => {c, c.base}
      case AppendixRule(c) => {c, c.base}
      case LegacyPageNumberingRule(c) => {c, c.base}
    }

    /** The class of the instance; the old page-numbering class has none in `ALL_CHECKS`. */
    function Kind(): Option<CheckKind> {
      match this
      case SectionRule(_) => Some(SectionKind)
      case SectionNumberingRule(_) => Some(SectionNumberingKind)
      case PageNumberingRule(_) => Some(PageNumberingKind)
      case TableRule(_) => Some(TableKind)
      case FigureRule(_) => Some(FigureKind)
      case FormulaRule(_) => Some(FormulaKind)
      case AppendixRule(_) => Some(AppendixKind)
      case LegacyPageNumberingRule(_) => None
    }

    /** `run` completes without raising: the configured values have the types it uses. */
    predicate Runnable(doc: Document)
      reads Footprint()
    {
      Ready() || (AppendixRule? && Appendices.TextHeadings(doc.rawText) == [])
    }

    /** The configured values have the types `run` uses, whatever the document. */
    predicate Ready()
      reads Footprint()
    {
      match this
      case SectionRule(c) => c.Runnable()
      case SectionNumberingRule(c) => c.Runnable()
      case AppendixRule(c) => Appendices.Configured(c.allowedTypes, c.maxDesignationLength)
      case _ => true
    }

    /** The state a constructor leaves: no rules and every field at its constructor default. */
    predicate Pristine()
      reads Footprint()
    {
      Base().rules == Null
      && match this
        case SectionRule(c) =>
          c.requiredSections == StrList(SectionPresence.DefaultRequired)
        case SectionNumberingRule(c) =>
          c.numberingPattern == Str(SectionNumbering.DefaultPattern) && c.maxLevel == Int(SectionNumbering.DefaultMaxLevel)
        case TableRule(c) =>
          c.captionPrefix == Str("") && c.mustBeReferenced == Bool(true)
        case FormulaRule(c) =>
          c.numberingPattern == Str(Formulas.DefaultPattern) && c.requireReference == Bool(true)
        case AppendixRule(c) =>
          c.appendixPattern == Str(Appendices.StrictPattern) && c.requireReference == Bool(true)
          && c.allowedTypes == Null && c.maxDesignationLength == Null
          && c.requireUppercase == Bool(true) && c.requireSpace == Bool(true)
          && c.allowDotAfter == Bool(true) && c.allowParentheses == Bool(true)
        case _ => true
    }

    /** The state a constructor followed by `set_rules(config)` leaves. */
    predicate Applied(config: Value)
      reads Footprint()
      requires Truthy(config) && Accepted(config)
    {
      Base().rules == config
      && match this
        case SectionRule(c) =>
          c.requiredSections == RuleAt(config, SectionPresence.RequiredPath, StrList(SectionPresence.DefaultRequired))
        case SectionNumberingRule(c) =>
          c.numberingPattern == RuleAt(config, SectionNumbering.PatternPath, Str(SectionNumbering.DefaultPattern))
          && c.maxLevel == RuleAt(config, SectionNumbering.MaxLevelPath, Int(SectionNumbering.DefaultMaxLevel))
        case TableRule(c) =>
          if Tables.ConfiguresTables(config) then
            c.captionPrefix == Get(Tables.TableRules(config), "caption_prefix", Str(Tables.TablePrefix))
            && c.mustBeReferenced == Get(Tables.TableRules(config), "must_be_referenced", Bool(true))
          else
            c.captionPrefix == Str("") && c.mustBeReferenced == Bool(true)
        case FormulaRule(c) =>
          c.numberingPattern == RuleAt(config, Formulas.PatternPath, Str(Formulas.DefaultPattern))
          && c.requireReference == RuleAt(config, Formulas.ReferencePath, Bool(true))
        case AppendixRule(c) =>
          c.appendixPattern == Get(Appendices.AppendixRules(config), "pattern", Str(Appendices.RelaxedPattern))
          && c.allowedTypes == Get(Appendices.Designations(config), "types", StrList(Appendices.DefaultTypes))
          && c.maxDesignationLength == Get(Appendices.Designations(config), "max_length", Int(Appendices.DefaultMaxLength))
          && c.requireUppercase == Get(Appendices.Validation(config), "require_uppercase", Bool(true))
          && c.requireSpace == Get(Appendices.Validation(config), "require_space", Bool(true))
          && c.allowDotAfter == Get(Appendices.Validation(config), "allow_dot_after", Bool(true))
          && c.allowParentheses == Get(Appendices.Validation(config), "allow_parentheses", Bool(true))
          && c.requireReference == Get(Appendices.AppendixRules(config), "require_reference", Bool(true))
        case _ => true
    }
  }

  /** With the constructor defaults every check except the appendix check runs on any document. */
  lemma PristineRunnable(c: Check, doc: Document)
    requires c.Pristine() && !c.AppendixRule?
    ensures c.Runnable(doc)
  {
    if c.SectionRule? {
      assert IsStrList(StrList(SectionPresence.DefaultRequired));
    }
  }

  /** An unconfigured appendix check runs only on a text without appendix headings. */
  lemma PristineAppendixNeedsNoHeadings(c: Check, doc: Document)
    requires c.AppendixRule? && c.Pristine()
    ensures c.Runnable(doc) <==> Appendices.TextHeadings(doc.rawText) == []
  {
  }

  /** A configuration that leaves the designation settings out gives the appendix check defaults under which it runs on any document. */
  lemma ConfiguredAppendixRunnable(c: Check, config: Value, doc: Document)
    requires Truthy(config) && Accepted(config) && c.AppendixRule? && c.Applied(config)
    requires !In("types", Appendices.Designations(config)) && !In("max_length", Appendices.Designations(config))
    ensures c.Runnable(doc)
  {
    assert IsStrList(StrList(Appendices.DefaultTypes));
  }

  /** An instance can run exactly when its class's `run` can. */
  lemma RunnableIsClassPrecondition(c: Check, doc: Document)
    ensures c.SectionRule? ==> (c.Runnable(doc) <==> c.section.Runnable())
    ensures c.SectionNumberingRule? ==> (c.Runnable(doc) <==> c.numbering.Runnable())
    ensures c.AppendixRule? ==> (c.Runnable(doc) <==> c.appendix.Runnable(doc))
    ensures !(c.SectionRule? || c.SectionNumberingRule? || c.AppendixRule?) ==> c.Runnable(doc)
  {
  }

  /**
   * What `get_all_checks` leaves in one slot: an instance of class `kind`
   * with that class's id and name, configured by `set_rules(config)` when
   * the configuration is truthy and at its constructor defaults otherwise.
   */
  predicate Made(c: Check, kind: CheckKind, config: Value)
    reads c.Footprint()
    requires Accepted(config)
  {
    c.Kind() == Some(kind) && c.Base().checkId == Id(kind) && c.Base().checkName == Name(kind)
    && if Truthy(config) then c.Applied(config) else c.Pristine()
  }

  /** One iteration of `get_all_checks`: a fresh instance, configured when the configuration is truthy. */
  method Instantiate(kind: CheckKind, config: Value) returns (c: Check)
    requires kind != FormatKind && Accepted(config)
    ensures fresh(c.Footprint())
    ensures Made(c, kind, config)
  {
    match kind
    case SectionKind => c := MakeSection(config);
    case SectionNumberingKind => c := MakeSectionNumbering(config);
    case PageNumberingKind => c := MakePageNumbering(config);
    case TableKind => c := MakeTable(config);
    case FigureKind => c := MakeFigure(config);
    case FormulaKind => c := MakeFormula(config);
    case AppendixKind => c := MakeAppendix(config);
  }

  method MakeSection(config: Value) returns (c: Check)
    requires Accepted(config)
    ensures fresh(c.Footprint())
    ensures Made(c, SectionKind, config)
  {
    var s := new SectionPresence.SectionCheck();
    if Truthy(config) {
      s.SetRules(config);
    }
    c := SectionRule(s);
  }

  method MakeSectionNumbering(config: Value) returns (c: Check)
    requires Accepted(config)
    ensures fresh(c.Footprint())
    ensures Made(c, SectionNumberingKind, config)
  {
    var s := new SectionNumbering.SectionNumberingCheck();
    if Truthy(config) {
      s.SetRules(config);
    }
    c := SectionNumberingRule(s);
  }

  method MakePageNumbering(config: Value) returns (c: Check)
    requires Accepted(config)
    ensures fresh(c.Footprint())
    ensures Made(c, PageNumberingKind, config)
  {
    var s := new PageNumbering.PageNumberingCheck();
    if Truthy(config) {
      s.base.SetRules(config);
    }
    c := PageNumberingRule(s);
  }

  method MakeTable(config: Value) returns (c: Check)
    requires Accepted(config)
    ensures fresh(c.Footprint())
    ensures Made(c, TableKind, config)
  {
    var s := new Tables.TableCheck();
    if Truthy(config) {
      s.SetRules(config);
    }
    c := TableRule(s);
  }

  method MakeFigure(config: Value) returns (c: Check)
    requires Accepted(config)
    ensures fresh(c.Footprint())
    ensures Made(c, FigureKind, config)
  {
    var s := new Figures.FigureCheck();
    if Truthy(config) {
      s.base.SetRules(config);
    }
    c := FigureRule(s);
  }

  method MakeFormula(config: Value) returns (c: Check)
    requires Accepted(config)
    ensures fresh(c.Footprint())
    ensures Made(c, FormulaKind, config)
  {
    var s := new Formulas.FormulaCheck();
    if Truthy(config) {
      s.SetRules(config);
    }
    c := FormulaRule(s);
  }

  method MakeAppendix(config: Value) returns (c: Check)
    requires Accepted(config)
    ensures fresh(c.Footprint())
    ensures Made(c, AppendixKind, config)
  {
    var s := new Appendices.AppendixCheck();
    if Truthy(config) {
      s.SetRules(config);
    }
    c := AppendixRule(s);
  }

  /**
   * `get_all_checks(config)`: one fresh instance per class of `ALL_CHECKS`
   * but the format check, in registry order and sharing no object, each
   * configured exactly when the configuration is truthy (so None and {}
   * leave the constructor defaults).
   */
  method GetAllChecks(config: Value) returns (checks: seq<Check>)
    requires Accepted(config)
    ensures |checks| == |AllChecks| - 1
    ensures forall i :: 0 <= i < |checks| ==> fresh(checks[i].Footprint()) && Made(checks[i], AllChecks[i], config)
    ensures forall i, j :: 0 <= i < j < |checks| ==> checks[i].Footprint() !! checks[j].Footprint()
  {
    checks := [];
    ghost var taken: set<object> := {};
    for i := 0 to |AllChecks| - 1
      invariant |checks| == i
      invariant forall k :: 0 <= k < i ==> fresh(checks[k].Footprint()) && Made(checks[k], AllChecks[k], config)
      invariant forall k :: 0 <= k < i ==> checks[k].Footprint() <= taken
      invariant forall k, m :: 0 <= k < m < i ==> checks[k].Footprint() !! checks[m].Footprint()
    {
      var c := Instantiate(AllChecks[i], config);
      assert c.Footprint() !! taken;
      checks := checks + [c];
      taken := taken + c.Footprint();
    }
  }
}
