/** The template metadata queries (lib/db/template-queries.ts). The
    `template_metadata` table is given as its rows together with the way the
    query comes back; a query is a list of equality conditions, composed the
    way the source chains `.eq(...)` calls. */
module TemplateQueries {
  import opened Common

  datatype TemplateMetadata = TemplateMetadata(
    id: string,
    templateId: string,
    name: string,
    description: string,
    category: string,
    businessType: string,
    palettes: map<string, map<string, string>>,
    customizables: map<string, seq<string>>,
    thumbnailUrl: string,
    multiPage: bool,
    hasBlog: bool,
    hasGallery: bool,
    createdAt: string,
    updatedAt: string)

  /** How a query comes back: with the selected rows, with an error, or with
      neither (`data` null and no error). */
  datatype Outcome = Answered | Failed | NullData

  datatype Table = Table(rows: seq<TemplateMetadata>, outcome: Outcome)

  datatype Column = TemplateIdColumn | CategoryColumn | BusinessTypeColumn

  /** One `.eq(column, value)` call. */
  datatype Eq = Eq(column: Column, value: string)

  function Field(m: TemplateMetadata, c: Column): string {
    match c
    case TemplateIdColumn => m.templateId
    case CategoryColumn => m.category
    case BusinessTypeColumn => m.businessType
  }

  predicate Satisfies(m: TemplateMetadata, conds: seq<Eq>) {
    forall i :: 0 <= i < |conds| ==> Field(m, conds[i].column) == conds[i].value
  }

  lemma SatisfiesOne(m: TemplateMetadata, e: Eq)
    ensures Satisfies(m, [e]) <==> Field(m, e.column) == e.value
  {
    assert [e][0] == e;
  }

  /** The rows a `select('*')` narrowed by `conds` returns. No `order` is
      given, so only which rows come back is specified, not their order. */
  function Select(rows: seq<TemplateMetadata>, conds: seq<Eq>): (r: seq<TemplateMetadata>)
    ensures |r| <= |rows|
    ensures forall x :: x in r <==> x in rows && Satisfies(x, conds)
  {
    if rows == [] then []
    else
      var rest := Select(rows[1..], conds);
      assert forall x :: x in rows <==> x == rows[0] || x in rows[1..];
      if Satisfies(rows[0], conds) then [rows[0]] + rest else rest
  }

  /** With no condition every row comes back, in table order. */
  lemma {:induction false} SelectAll(rows: seq<TemplateMetadata>)
    ensures Select(rows, []) == rows
  {
    if rows != [] {
      SelectAll(rows[1..]);
      assert [rows[0]] + rows[1..] == rows;
    }
  }

  /** Rows none of which satisfies the conditions select nothing. */
  lemma {:induction false} NoneSelected(rows: seq<TemplateMetadata>, conds: seq<Eq>)
    requires forall x :: x in rows ==> !Satisfies(x, conds)
    ensures Select(rows, conds) == []
  {
    if rows != [] {
      assert rows[0] in rows;
      NoneSelected(rows[1..], conds);
    }
  }

  /** A template id held by exactly one row selects exactly that row. */
  lemma {:induction false} SelectUnique(rows: seq<TemplateMetadata>, i: nat, templateId: string)
    requires i < |rows| && rows[i].templateId == templateId
    requires forall j :: 0 <= j < |rows| && j != i ==> rows[j].templateId != templateId
    ensures Select(rows, [Eq(TemplateIdColumn, templateId)]) == [rows[i]]
  {
    var conds := [Eq(TemplateIdColumn, templateId)];
    if i == 0 {
      forall x | x in rows[1..] ensures !Satisfies(x, conds) {
        var j :| 0 <= j < |rows[1..]| && rows[1..][j] == x;
        assert rows[j + 1].templateId != templateId;
        SatisfiesOne(x, conds[0]);
      }
      NoneSelected(rows[1..], conds);
      SatisfiesOne(rows[0], conds[0]);
    } else {
      SatisfiesOne(rows[0], conds[0]);
      SelectUnique(rows[1..], i - 1, templateId);
    }
  }

  /** `getTemplateMetadata`: `.eq('template_id', id).single()`. `single()`
      reports an error unless exactly one row matches; an error gives `None`
      (`null`). */
  function GetTemplateMetadata(db: Table, templateId: string): (r: Option<TemplateMetadata>)
    ensures db.outcome != Answered ==> r.None?
    ensures r.Some? ==> r.value in db.rows && r.value.templateId == templateId
    ensures r.Some? <==> db.outcome == Answered && |Select(db.rows, [Eq(TemplateIdColumn, templateId)])| == 1
  {
    var matching := Select(db.rows, [Eq(TemplateIdColumn, templateId)]);
    if db.outcome == Answered && |matching| == 1 then
      assert matching[0] in matching;
      SatisfiesOne(matching[0], Eq(TemplateIdColumn, templateId));
      Some(matching[0])
    else None
  }

  /** A template stored once is found, whatever else the table holds. */
  lemma UniqueTemplateFound(db: Table, i: nat, templateId: string)
    requires db.outcome == Answered
    requires i < |db.rows| && db.rows[i].templateId == templateId
    requires forall j :: 0 <= j < |db.rows| && j != i ==> db.rows[j].templateId != templateId
    ensures GetTemplateMetadata(db, templateId) == Some(db.rows[i])
  {
    SelectUnique(db.rows, i, templateId);
  }

  /** The optional filters of `getAllTemplateMetadata`. */
  datatype Filters = Filters(category: Option<string>, businessType: Option<string>)

  /** The `.eq` calls the filters add: one per truthy filter. */
  function Conditions(f: Filters): (r: seq<Eq>)
    ensures |r| <= 2
    ensures forall v :: Eq(CategoryColumn, v) in r <==> Present(f.category) && v == f.category.value
    ensures forall v :: Eq(BusinessTypeColumn, v) in r <==> Present(f.businessType) && v == f.businessType.value
    ensures forall e :: e in r ==> e.column != TemplateIdColumn
  {
    var byCategory := if Present(f.category) then [Eq(CategoryColumn, f.category.value)] else [];
    var byType := if Present(f.businessType) then [Eq(BusinessTypeColumn, f.businessType.value)] else [];
    byCategory + byType
  }

  /** What the filters mean, stated on a single template. */
  predicate Matches(m: TemplateMetadata, f: Filters) {
    && (Present(f.category) ==> m.category == f.category.value)
    && (Present(f.businessType) ==> m.businessType == f.businessType.value)
  }

  /** The composed conditions hold exactly when both filters do. */
  lemma ConditionsMeanFilters(m: TemplateMetadata, f: Filters)
    ensures Satisfies(m, Conditions(f)) <==> Matches(m, f)
  {
    var conds := Conditions(f);
    if Present(f.category) {
      assert conds[0] == Eq(CategoryColumn, f.category.value);
    }
    if Present(f.businessType) {
      var k := if Present(f.category) then 1 else 0;
      assert conds[k] == Eq(BusinessTypeColumn, f.businessType.value);
    }
  }

  /** `getAllTemplateMetadata`: `[]` on an error and for `null` data. */
  function GetAllTemplateMetadata(db: Table, f: Filters): (r: seq<TemplateMetadata>)
    ensures db.outcome != Answered ==> r == []
    ensures db.outcome == Answered ==> forall x :: x in r <==> x in db.rows && Matches(x, f)
  {
    if db.outcome == Answered then
      var r := Select(db.rows, Conditions(f));
      assert forall x :: Satisfies(x, Conditions(f)) <==> Matches(x, f) by {
        forall x ensures Satisfies(x, Conditions(f)) <==> Matches(x, f) {
          ConditionsMeanFilters(x, f);
        }
      }
      r
    else []
  }

  /** Without a truthy filter the whole table comes back; an empty string
      filters nothing. */
  lemma NoFiltersAllRows(db: Table, category: Option<string>, businessType: Option<string>)
    requires db.outcome == Answered
    requires !Present(category) && !Present(businessType)
    ensures GetAllTemplateMetadata(db, Filters(category, businessType)) == db.rows
  {
    assert Conditions(Filters(category, businessType)) == [];
    SelectAll(db.rows);
  }

  const DefaultPaletteKey: string := "default"

  /** `getTemplatePalette(id, key = 'default')`: `palettes[key]`, else
      `palettes['default']`, else `null`. A palette is an object, so any
      stored palette is truthy, even an empty one. */
  function GetTemplatePalette(db: Table, templateId: string, paletteKey: Option<string>): (r: Option<map<string, string>>)
    ensures GetTemplateMetadata(db, templateId).None? ==> r.None?
    ensures GetTemplateMetadata(db, templateId).Some? ==>
              var palettes := GetTemplateMetadata(db, templateId).value.palettes;
              var key := paletteKey.GetOr(DefaultPaletteKey);
              && (key in palettes ==> r == Some(palettes[key]))
              && (key !in palettes && DefaultPaletteKey in palettes ==> r == Some(palettes[DefaultPaletteKey]))
              && (key !in palettes && DefaultPaletteKey !in palettes ==> r.None?)
  {
    match GetTemplateMetadata(db, templateId)
    case None => None
    case Some(metadata) =>
      var key := paletteKey.GetOr(DefaultPaletteKey);
      if key in metadata.palettes then Some(metadata.palettes[key])
      else if DefaultPaletteKey in metadata.palettes then Some(metadata.palettes[DefaultPaletteKey])
      else None
  }

  /** `getTemplateCustomizables` */
  function GetTemplateCustomizables(db: Table, templateId: string): (r: Option<map<string, seq<string>>>)
    ensures r.Some? <==> GetTemplateMetadata(db, templateId).Some?
    ensures r.Some? ==> r.value == GetTemplateMetadata(db, templateId).value.customizables
  {
    match GetTemplateMetadata(db, templateId)
    case None => None
    case Some(metadata) => Some(metadata.customizables)
  }

  /** `getAvailablePalettes`: the names of the palettes, empty when the
      metadata is missing. */
  function GetAvailablePalettes(db: Table, templateId: string): (r: set<string>)
    ensures GetTemplateMetadata(db, templateId).None? ==> r == {}
    ensures GetTemplateMetadata(db, templateId).Some? ==> r == GetTemplateMetadata(db, templateId).value.palettes.Keys
  {
    match GetTemplateMetadata(db, templateId)
    case None => {}
    case Some(metadata) => metadata.palettes.Keys
  }

  /** The names offered are exactly the stored palette names, and exactly
      the keys the palette lookup answers with their own palette; any other
      name gets the default palette or nothing. */
  lemma AvailablePalettesAgree(db: Table, templateId: string, key: string)
    requires GetTemplateMetadata(db, templateId).Some?
    ensures var palettes := GetTemplateMetadata(db, templateId).value.palettes;
            && (key in GetAvailablePalettes(db, templateId) <==> key in palettes)
            && (key in GetAvailablePalettes(db, templateId) ==> GetTemplatePalette(db, templateId, Some(key)) == Some(palettes[key]))
            && (key !in GetAvailablePalettes(db, templateId) ==>
                  GetTemplatePalette(db, templateId, Some(key)) == GetTemplatePalette(db, templateId, None))
            && (GetTemplatePalette(db, templateId, Some(key)).Some? <==>
                  key in GetAvailablePalettes(db, templateId) || DefaultPaletteKey in GetAvailablePalettes(db, templateId))
  {
  }

  /** Missing metadata: no palette, no customizables, no palette names. */
  lemma MissingMetadata(db: Table, templateId: string, key: Option<string>)
    requires GetTemplateMetadata(db, templateId).None?
    ensures GetTemplatePalette(db, templateId, key).None?
    ensures GetTemplateCustomizables(db, templateId).None?
    ensures GetAvailablePalettes(db, templateId) == {}
  {
  }
}
