/** The SkillCorner client's method table: seventeen GET endpoints, their
    documentation anchors and, for the endpoints about one resource, the name
    of the id that fills the endpoint's `{}` placeholder. The table is
    expanded by `MethodGenerator` into the client's operations. */
module SkillcornerBindings {
  import opened PyCore
  import opened MethodGenerator
  import FitRequestClient

  const BaseUrl := "https://skillcorner.com"
  const BaseClientName := "skillcorner"

  /** The literal text of `METHOD_DOCSTRING` around its two fields. */
  const DocHead := "Retrieve response from "
  const DocMiddle := " GET request. To learn more about it go to: https://skillcorner.com/api/docs/#"
  const DocEnd := "."

  /** `METHOD_DOCSTRING`, cut into its literal text and its two fields. */
  const MethodDocstring: Template := [Lit(DocHead), Field("endpoint"), Lit(DocMiddle), Field("docs_url_anchor"), Lit(DocEnd)]

  lemma {:induction false} SourceOfFive(a: string, k1: string, b: string, k2: string, c: string)
    ensures TemplateSource([Lit(a), Field(k1), Lit(b), Field(k2), Lit(c)])
      == a + ("{" + k1 + "}") + (b + (("{" + k2 + "}") + c))
  {
    var t5 := [Lit(c)];
    var t4 := [Field(k2)] + t5;
    var t3 := [Lit(b)] + t4;
    var t2 := [Field(k1)] + t3;
    var t1 := [Lit(a)] + t2;
    assert t5[1..] == [] && TemplateSource(t5) == c + "";
    assert t4[1..] == t5 && TemplateSource(t4) == "{" + k2 + "}" + TemplateSource(t5);
    assert t3[1..] == t4 && TemplateSource(t3) == b + TemplateSource(t4);
    assert t2[1..] == t3 && TemplateSource(t2) == "{" + k1 + "}" + TemplateSource(t3);
    assert t1[1..] == t2 && TemplateSource(t1) == a + TemplateSource(t2);
    assert t1 == [Lit(a), Field(k1), Lit(b), Field(k2), Lit(c)];
  }

  /** The template is `METHOD_DOCSTRING` and is set. */
  lemma DocstringSource()
    ensures TemplateSource(MethodDocstring)
      == DocHead + "{endpoint}" + DocMiddle + "{docs_url_anchor}" + DocEnd
    ensures TemplateSet(Some(MethodDocstring))
  {
    SourceOfFive(DocHead, "endpoint", DocMiddle, "docs_url_anchor", DocEnd);
    assert "{" + "endpoint" + "}" == "{endpoint}";
    assert "{" + "docs_url_anchor" + "}" == "{docs_url_anchor}";
    assert |TemplateSource(MethodDocstring)| >= |DocHead| > 0;
  }

  /** The text a template part renders to (empty for a missing key). */
  function PartText(p: Part, bnd: Binding): string {
    match p
    case Lit(s) => s
    case Field(k) => if k in bnd then ToStr(bnd[k]) else ""
  }

  /** The texts of the parts, concatenated. */
  function Texts(t: Template, bnd: Binding): string {
    if t == [] then "" else PartText(t[0], bnd) + Texts(t[1..], bnd)
  }

  /** A template whose fields are all present renders to its parts' texts. */
  lemma {:induction false} RenderTexts(t: Template, bnd: Binding)
    requires FieldsPresent(t, bnd)
    ensures Render(t, bnd) == Ok(Texts(t, bnd))
    decreases |t|
  {
    if t != [] {
      assert FieldsPresent(t[1..], bnd) by {
        forall k | 0 <= k < |t| - 1 ensures t[1..][k] == t[k + 1] { }
      }
      RenderTexts(t[1..], bnd);
    }
  }

  /** The texts of a template of two fields between three literals. */
  lemma TextsFive(a: string, k1: string, b: string, k2: string, c: string, bnd: Binding)
    requires k1 in bnd && k2 in bnd
    ensures Texts([Lit(a), Field(k1), Lit(b), Field(k2), Lit(c)], bnd)
      == a + ToStr(bnd[k1]) + b + ToStr(bnd[k2]) + c
  {
    var x, y := ToStr(bnd[k1]), ToStr(bnd[k2]);
    var t5: Template := [Lit(c)];
    var t4 := [Field(k2)] + t5;
    var t3 := [Lit(b)] + t4;
    var t2 := [Field(k1)] + t3;
    var t1 := [Lit(a)] + t2;
    assert t1 == [Lit(a), Field(k1), Lit(b), Field(k2), Lit(c)];
    assert t5[1..] == [] && Texts(t5, bnd) == c + "";
    assert t4[1..] == t5 && Texts(t4, bnd) == y + Texts(t5, bnd);
    assert t3[1..] == t4 && Texts(t3, bnd) == b + Texts(t4, bnd);
    assert t2[1..] == t3 && Texts(t2, bnd) == x + Texts(t3, bnd);
    assert t1[1..] == t2 && Texts(t1, bnd) == a + Texts(t2, bnd);
    assert a + (x + (b + (y + (c + "")))) == a + x + b + y + c;
  }

  /** Rendering a template of two fields with both keys present. */
  lemma RenderFive(a: string, k1: string, b: string, k2: string, c: string, bnd: Binding)
    requires k1 in bnd && k2 in bnd
    ensures Render([Lit(a), Field(k1), Lit(b), Field(k2), Lit(c)], bnd)
      == Ok(a + ToStr(bnd[k1]) + b + ToStr(bnd[k2]) + c)
  {
    var t := [Lit(a), Field(k1), Lit(b), Field(k2), Lit(c)];
    assert FieldsPresent(t, bnd);
    RenderTexts(t, bnd);
    TextsFive(a, k1, b, k2, c, bnd);
  }

  /** An endpoint of the table, by its `/`-separated segments: a fixed path,
      or a path with one `{}` placeholder segment between `head` and `tail`. */
  datatype Path = Fixed(segments: seq<string>) | WithId(head: seq<string>, tail: seq<string>)

  /** The segments, each preceded by `/`, and a final `/`. */
  function Slashed(segments: seq<string>): string {
    if segments == [] then "/" else "/" + segments[0] + Slashed(segments[1..])
  }

  /** The endpoint as the table writes it. */
  function PathText(p: Path): string {
    match p
    case Fixed(s) => Slashed(s)
    case WithId(h, t) => Slashed(h) + "{}" + Slashed(t)
  }

  lemma SlashedOne(x: string)
    ensures Slashed([x]) == "/" + x + "/"
  {
    assert [x][1..] == [];
  }

  lemma SlashedTwo(x: string, y: string)
    ensures Slashed([x, y]) == "/" + x + "/" + y + "/"
  {
    assert [x, y][1..] == [y];
    SlashedOne(y);
  }

  /** The text of a fixed endpoint of the table. */
  lemma PathTextFixed()
    ensures PathText(Fixed(["api", "matches"])) == "/api/matches/"
  {
    SlashedTwo("api", "matches");
  }

  /** The text of an endpoint of the table with a placeholder. */
  lemma PathTextWithId()
    ensures PathText(WithId(["api", "competitions"], ["editions"])) == "/api/competitions/{}/editions/"
  {
    assert Slashed(["api", "competitions"]) == "/api/competitions/" by {
      SlashedTwo("api", "competitions");
    }
    assert Slashed(["editions"]) == "/editions/" by {
      SlashedOne("editions");
    }
    assert "/api/competitions/" + "{}" + "/editions/" == "/api/competitions/{}/editions/";
  }

  /** One binding dict of `METHODS_BINDING`. Every name in the table is
      `get_` followed by what it gets, its `subject`. */
  datatype Entry = Entry(subject: string, endpoint: Path, anchor: string, resourceName: Option<string>, execMethod: Option<string>)

  function Name(e: Entry): string {
    "get_" + e.subject
  }

  /** The dict as the table writes it: only the keys the entry sets. */
  function ToBinding(e: Entry): (b: Binding)
    ensures b.Keys == {"name", "endpoint", "docs_url_anchor"}
      + (if e.resourceName.Some? then {"resource_name"} else {})
      + (if e.execMethod.Some? then {"exec_method"} else {})
  {
    var b := map["name" := PyStr(Name(e)), "endpoint" := PyStr(PathText(e.endpoint)), "docs_url_anchor" := PyStr(e.anchor)];
    var b1 := if e.resourceName.Some? then b["resource_name" := PyStr(e.resourceName.value)] else b;
    if e.execMethod.Some? then b1["exec_method" := PyStr(e.execMethod.value)] else b1
  }

  // The dicts of `METHODS_BINDING`, one per generated method.

  const GetCompetitionEditions: Entry :=
    Entry("competition_editions", Fixed(["api", "competition_editions"]),
      "/competition_editions_list", None, None)

  const GetCompetitions: Entry :=
    Entry("competitions", Fixed(["api", "competitions"]),
      "/competitions/competitions_list", None, None)

  const GetCompetitionCompetitionEditions: Entry :=
    Entry("competition_competition_editions", WithId(["api", "competitions"], ["editions"]),
      "/competitions/competitions_editions_list", Some("competition_id"), None)

  const GetCompetitionRounds: Entry :=
    Entry("competition_rounds", WithId(["api", "competitions"], ["rounds"]),
      "/competitions/competitions_rounds_list", Some("competition_id"), None)

  const GetInPossessionOffBallRuns: Entry :=
    Entry("in_possession_off_ball_runs", Fixed(["api", "in_possession", "off_ball_runs"]),
      "/in_possession/in_possession_off_ball_runs_list", None, None)

  const GetInPossessionOnBallPressures: Entry :=
    Entry("in_possession_on_ball_pressures", Fixed(["api", "in_possession", "on_ball_pressures"]),
      "/in_possession/in_possession_on_ball_pressures_list", None, None)

  const GetInPossessionPasses: Entry :=
    Entry("in_possession_passes", Fixed(["api", "in_possession", "passes"]),
      "/in_possession/in_possession_passes_list", None, None)

  const GetMatches: Entry :=
    Entry("matches", Fixed(["api", "matches"]),
      "/matches/matches_list", None, None)

  const GetMatch: Entry :=
    Entry("match", WithId(["api", "match"], []),
      "/match/match_read", Some("match_id"), None)

  const GetMatchDataCollection: Entry :=
    Entry("match_data_collection", WithId(["api", "match"], ["data_collection"]),
      "/match/match_data_collection_read", Some("match_id"), None)

  const GetMatchTrackingData: Entry :=
    Entry("match_tracking_data", WithId(["api", "match"], ["tracking"]),
      "/match/match_tracking_list", Some("match_id"), Some("_get_tracking_data"))

  const GetPhysical: Entry :=
    Entry("physical", Fixed(["api", "physical"]),
      "/physical/physical_list", None, None)

  const GetPlayers: Entry :=
    Entry("players", Fixed(["api", "players"]),
      "/players/players_list", None, None)

  const GetPlayer: Entry :=
    Entry("player", WithId(["api", "players"], []),
      "/players/players_read", Some("player_id"), None)

  const GetSeasons: Entry :=
    Entry("seasons", Fixed(["api", "seasons"]),
      "/seasons/seasons_list", None, None)

  const GetTeams: Entry :=
    Entry("teams", Fixed(["api", "teams"]),
      "/teams/teams_list", None, None)

  const GetTeam: Entry :=
    Entry("team", WithId(["api", "teams"], []),
      "/teams/teams_read", Some("team_id"), None)

  /** `METHODS_BINDING`, in the source's order. */
  const Table: seq<Entry> := [
    GetCompetitionEditions,
    GetCompetitions,
    GetCompetitionCompetitionEditions,
    GetCompetitionRounds,
    GetInPossessionOffBallRuns,
    GetInPossessionOnBallPressures,
    GetInPossessionPasses,
    GetMatches,
    GetMatch,
    GetMatchDataCollection,
    GetMatchTrackingData,
    GetPhysical,
    GetPlayers,
    GetPlayer,
    GetSeasons,
    GetTeams,
    GetTeam
  ]

  /** The dicts of a list of entries. */
  function Bindings(es: seq<Entry>): (bs: seq<Binding>)
    ensures |bs| == |es| && forall i :: 0 <= i < |es| ==> bs[i] == ToBinding(es[i])
  {
    seq(|es|, i requires 0 <= i < |es| => ToBinding(es[i]))
  }

  function MethodsBinding(): seq<Binding> {
    Bindings(Table)
  }

  // -----------------------------------------------------------------------
  // Placeholders.

  /** Number of occurrences of `c` in `s`. */
  function CountChar(s: string, c: char): (n: nat)
    ensures n == 0 <==> c !in s
  {
    if s == [] then 0
    else
      var rest := CountChar(s[1..], c);
      assert c in s <==> s[0] == c || c in s[1..];
      (if s[0] == c then 1 else 0) + rest
  }

  lemma {:induction false} CountCharAppend(a: string, b: string, c: char)
    ensures CountChar(a + b, c) == CountChar(a, c) + CountChar(b, c)
    decreases |a|
  {
    if a == [] {
      assert a + b == b;
    } else {
      assert (a + b)[0] == a[0];
      assert (a + b)[1..] == a[1..] + b;
      CountCharAppend(a[1..], b, c);
    }
  }

  predicate BraceFree(s: string) {
    '{' !in s && '}' !in s
  }

  predicate SegmentsBraceFree(segments: seq<string>) {
    forall k :: 0 <= k < |segments| ==> BraceFree(segments[k])
  }

  lemma {:induction false} SlashedBraceFree(segments: seq<string>)
    requires SegmentsBraceFree(segments)
    ensures BraceFree(Slashed(segments))
    decreases |segments|
  {
    if segments != [] {
      assert SegmentsBraceFree(segments[1..]) by {
        forall k | 0 <= k < |segments| - 1 ensures segments[1..][k] == segments[k + 1] { }
      }
      SlashedBraceFree(segments[1..]);
      assert BraceFree(segments[0]);
    }
  }

  /** No segment holds a brace. */
  predicate PathWellFormed(p: Path) {
    match p
    case Fixed(s) => SegmentsBraceFree(s)
    case WithId(h, t) => SegmentsBraceFree(h) && SegmentsBraceFree(t)
  }

  /** An entry has a resource name exactly when its endpoint has a
      placeholder. */
  predicate EntryWellFormed(e: Entry) {
    && PathWellFormed(e.endpoint)
    && (e.endpoint.WithId? <==> e.resourceName.Some?)
  }

  /** A well-formed endpoint has one `{` and one `}` when the entry has a
      resource name, and none otherwise. */
  lemma PlaceholderCount(e: Entry)
    requires EntryWellFormed(e)
    ensures CountChar(PathText(e.endpoint), '{') == (if e.resourceName.Some? then 1 else 0)
    ensures CountChar(PathText(e.endpoint), '}') == (if e.resourceName.Some? then 1 else 0)
  {
    match e.endpoint
    case Fixed(s) =>
      SlashedBraceFree(s);
    case WithId(h', t') =>
      var h, t := Slashed(h'), Slashed(t');
      SlashedBraceFree(h');
      SlashedBraceFree(t');
      assert CountChar("{}", '{') == 1 && CountChar("{}", '}') == 1 by {
        assert "{}"[1..] == "}";
        assert "}"[1..] == "";
      }
      CountCharAppend(h, "{}", '{');
      CountCharAppend(h + "{}", t, '{');
      CountCharAppend(h, "{}", '}');
      CountCharAppend(h + "{}", t, '}');
  }

  /** Filling a well-formed endpoint never fails: a fixed one is unchanged, a
      placeholder is replaced by the id's text. */
  lemma FillEntry(e: Entry, resourceId: Value)
    requires EntryWellFormed(e)
    ensures FitRequestClient.FillEndpoint(PathText(e.endpoint), resourceId)
      == Ok(match e.endpoint
            case Fixed(s) => Slashed(s)
            case WithId(h, t) => Slashed(h) + ToStr(resourceId) + Slashed(t))
  {
    match e.endpoint
    case Fixed(s) =>
      SlashedBraceFree(s);
      FitRequestClient.FillWithoutBraces(Slashed(s), ToStr(resourceId), FitRequestClient.NoFields);
    case WithId(h, t) =>
      SlashedBraceFree(h);
      SlashedBraceFree(t);
      FitRequestClient.FillOnePlaceholder(Slashed(h), Slashed(t), ToStr(resourceId));
  }

  /** What is checked of each entry: well-formed, and its subject has no `g`
      or is the one subject whose `g` does not start `get_`. */
  predicate EntryChecked(e: Entry) {
    EntryWellFormed(e) && SubjectHasNoGet(e.subject)
  }

  /** The subject has no `g`, or is the one subject whose `g` does not start
      `get_`. */
  predicate SubjectHasNoGet(subject: string) {
    'g' !in subject || subject == "match_trackin" + "g_data"
  }

  lemma PathChecked0() ensures EntryWellFormed(GetCompetitionEditions) { }
  lemma SubjectChecked0() ensures SubjectHasNoGet(GetCompetitionEditions.subject) { }

  lemma PathChecked1() ensures EntryWellFormed(GetCompetitions) { }
  lemma SubjectChecked1() ensures SubjectHasNoGet(GetCompetitions.subject) { }

  lemma PathChecked2() ensures EntryWellFormed(GetCompetitionCompetitionEditions) { }
  lemma SubjectChecked2() ensures SubjectHasNoGet(GetCompetitionCompetitionEditions.subject) { }

  lemma PathChecked3() ensures EntryWellFormed(GetCompetitionRounds) { }
  lemma SubjectChecked3() ensures SubjectHasNoGet(GetCompetitionRounds.subject) { }

  lemma PathChecked4() ensures EntryWellFormed(GetInPossessionOffBallRuns) { }
  lemma SubjectChecked4() ensures SubjectHasNoGet(GetInPossessionOffBallRuns.subject) { }

  lemma PathChecked5() ensures EntryWellFormed(GetInPossessionOnBallPressures) { }
  lemma SubjectChecked5() ensures SubjectHasNoGet(GetInPossessionOnBallPressures.subject) { }

  lemma PathChecked6() ensures EntryWellFormed(GetInPossessionPasses) { }
  lemma SubjectChecked6() ensures SubjectHasNoGet(GetInPossessionPasses.subject) { }

  lemma PathChecked7() ensures EntryWellFormed(GetMatches) { }
  lemma SubjectChecked7() ensures SubjectHasNoGet(GetMatches.subject) { }

  lemma PathChecked8() ensures EntryWellFormed(GetMatch) { }
  lemma SubjectChecked8() ensures SubjectHasNoGet(GetMatch.subject) { }

  lemma PathChecked9() ensures EntryWellFormed(GetMatchDataCollection) { }
  lemma SubjectChecked9() ensures SubjectHasNoGet(GetMatchDataCollection.subject) { }

  lemma PathChecked10() ensures EntryWellFormed(GetMatchTrackingData) { }
  lemma SubjectChecked10() ensures SubjectHasNoGet(GetMatchTrackingData.subject) { }

  lemma PathChecked11() ensures EntryWellFormed(GetPhysical) { }
  lemma SubjectChecked11() ensures SubjectHasNoGet(GetPhysical.subject) { }

  lemma PathChecked12() ensures EntryWellFormed(GetPlayers) { }
  lemma SubjectChecked12() ensures SubjectHasNoGet(GetPlayers.subject) { }

  lemma PathChecked13() ensures EntryWellFormed(GetPlayer) { }
  lemma SubjectChecked13() ensures SubjectHasNoGet(GetPlayer.subject) { }

  lemma PathChecked14() ensures EntryWellFormed(GetSeasons) { }
  lemma SubjectChecked14() ensures SubjectHasNoGet(GetSeasons.subject) { }

  lemma PathChecked15() ensures EntryWellFormed(GetTeams) { }
  lemma SubjectChecked15() ensures SubjectHasNoGet(GetTeams.subject) { }

  lemma PathChecked16() ensures EntryWellFormed(GetTeam) { }
  lemma SubjectChecked16() ensures SubjectHasNoGet(GetTeam.subject) { }

  /** Every entry of the table passes the checks. */
  lemma TableChecked()
    ensures forall i :: 0 <= i < |Table| ==> EntryChecked(Table[i])
  {
    PathChecked0(); SubjectChecked0(); PathChecked1(); SubjectChecked1(); PathChecked2(); SubjectChecked2(); PathChecked3(); SubjectChecked3(); PathChecked4(); SubjectChecked4(); PathChecked5(); SubjectChecked5(); PathChecked6(); SubjectChecked6(); PathChecked7(); SubjectChecked7(); PathChecked8(); SubjectChecked8(); PathChecked9(); SubjectChecked9(); PathChecked10(); SubjectChecked10(); PathChecked11(); SubjectChecked11(); PathChecked12(); SubjectChecked12(); PathChecked13(); SubjectChecked13(); PathChecked14(); SubjectChecked14(); PathChecked15(); SubjectChecked15(); PathChecked16(); SubjectChecked16();
  }

  /** Every endpoint with a resource name has exactly one `{}` and no other
      brace, every other endpoint has no brace, and filling any of them with
      any id succeeds. */
  lemma TablePlaceholders(resourceId: Value)
    ensures forall i :: 0 <= i < |Table| ==>
      && CountChar(PathText(Table[i].endpoint), '{') == (if Table[i].resourceName.Some? then 1 else 0)
      && CountChar(PathText(Table[i].endpoint), '}') == (if Table[i].resourceName.Some? then 1 else 0)
      && FitRequestClient.FillEndpoint(PathText(Table[i].endpoint), resourceId).Ok?
  {
    TableChecked();
    forall i | 0 <= i < |Table|
      ensures && CountChar(PathText(Table[i].endpoint), '{') == (if Table[i].resourceName.Some? then 1 else 0)
              && CountChar(PathText(Table[i].endpoint), '}') == (if Table[i].resourceName.Some? then 1 else 0)
              && FitRequestClient.FillEndpoint(PathText(Table[i].endpoint), resourceId).Ok?
    {
      PlaceholderCount(Table[i]);
      FillEntry(Table[i], resourceId);
    }
  }

  lemma NamesOfSubjects(e: Entry, e': Entry)
    requires e.subject != e'.subject
    ensures Name(e) != Name(e')
  {
    assert Name(e)[4..] == e.subject && Name(e')[4..] == e'.subject;
  }

  lemma SubjectsDistinct()
    ensures forall i, j :: 0 <= i < j < |Table| ==> Table[i].subject != Table[j].subject
  {
  }

  /** No two entries share a name, so no operation replaces another. */
  lemma NamesDistinct()
    ensures forall i, j :: 0 <= i < j < |Table| ==> Name(Table[i]) != Name(Table[j])
  {
    SubjectsDistinct();
    forall i, j | 0 <= i < j < |Table| ensures Name(Table[i]) != Name(Table[j]) {
      NamesOfSubjects(Table[i], Table[j]);
    }
  }

  // -----------------------------------------------------------------------
  // Save names.

  /** A `get_` name whose rest has no `g` keeps the rest in its `save_`
      sibling's name, as written and as intended. */
  lemma GetNameAgrees(rest: string)
    requires 'g' !in rest
    ensures SaveNameAsWritten("get_" + rest) == SaveName("get_" + rest) == "save_" + rest
  {
    SaveNamesOfWords("get", rest);
    assert "get" + "_" + rest == "get_" + rest;
    ReplaceNoFirstChar(rest, "get_", "save_");
  }

  /** Text without `g` is skipped by the replacement. */
  lemma ReplaceAfterNoG(a: string, b: string)
    requires 'g' !in a
    ensures ReplaceAll(a + b, "get_", "save_") == a + ReplaceAll(b, "get_", "save_")
  {
    MethodGenerator.ReplaceAfterNoFirstChar(a, b, "get_", "save_");
  }

  /** A `get_` name whose rest has one `g`, not followed by `et_`: the prefix
      `a` before it has none, and `b` starts with it. */
  lemma GetNameAgreesAfterG(a: string, b: string)
    requires 'g' !in a && b != [] && b[0] == 'g' && 'g' !in b[1..]
    requires |b| >= 2 && b[1] != 'e'
    ensures SaveNameAsWritten("get_" + (a + b)) == SaveName("get_" + (a + b)) == "save_" + (a + b)
  {
    SaveNamesOfWords("get", a + b);
    assert "get" + "_" + (a + b) == "get_" + (a + b);
    ReplaceAfterNoG(a, b);
    if |b| >= 4 {
      assert b[..4][1] == b[1];
    }
    assert ReplaceAll(b, "get_", "save_") == [b[0]] + ReplaceAll(b[1..], "get_", "save_");
    ReplaceNoFirstChar(b[1..], "get_", "save_");
    assert [b[0]] + b[1..] == b;
  }

  /** The entry's name derives the same `save_` name either way. */
  lemma EntryNameAgrees(e: Entry)
    requires SubjectHasNoGet(e.subject)
    ensures SaveNameAsWritten(Name(e)) == SaveName(Name(e)) == "save_" + e.subject
  {
    if 'g' !in e.subject {
      GetNameAgrees(e.subject);
    } else {
      GetNameAgreesAfterG("match_trackin", "g_data");
    }
  }

  /** For every name in the table the source's derivation of the `save_`
      name (which rewrites every `get_`) gives the intended name. */
  lemma TableSaveNamesAgree()
    ensures forall i :: 0 <= i < |Table| ==>
      SaveNameAsWritten(Name(Table[i])) == SaveName(Name(Table[i])) == "save_" + Table[i].subject
  {
    TableChecked();
    forall i | 0 <= i < |Table|
      ensures SaveNameAsWritten(Name(Table[i])) == SaveName(Name(Table[i])) == "save_" + Table[i].subject
    {
      EntryNameAgrees(Table[i]);
    }
  }

  // -----------------------------------------------------------------------
  // Expansion of the table.

  /** The docstring the template renders for an entry. */
  function DocFor(e: Entry): string {
    DocHead + PathText(e.endpoint) + DocMiddle + e.anchor + DocEnd
  }

  lemma RenderEntry(e: Entry)
    ensures Render(MethodDocstring, ToBinding(e)) == Ok(DocFor(e))
  {
    var b := ToBinding(e);
    assert b["endpoint"] == PyStr(PathText(e.endpoint)) && b["docs_url_anchor"] == PyStr(e.anchor);
    RenderFive(DocHead, "endpoint", DocMiddle, "docs_url_anchor", DocEnd, b);
  }

  /** The exec method an entry names, or the default. */
  function ExecOf(e: Entry): string {
    if e.execMethod.Some? then e.execMethod.value else "_request"
  }

  /** The entry's dict once the template has written its docstring. */
  function Documented(e: Entry): Binding {
    ToBinding(e)["docstring" := PyStr(DocFor(e))]
  }

  /** The record of an entry's own operation. */
  function EntryDetails(e: Entry): MethodDetails {
    MethodDetails(Name(e), PathText(e.endpoint), Some(DocFor(e)), ExecOf(e), None, true, Get, e.resourceName, None)
  }

  /** The record of an entry's `save_` sibling; for every entry of the table
      its name is `save_` followed by the subject (`TableSaveNamesAgree`). */
  function SiblingDetails(e: Entry): MethodDetails {
    MethodDetails(SaveNameAsWritten(Name(e)), PathText(e.endpoint), Some(DocFor(e) + SaveSuffix), ExecOf(e) + "_and_save",
                  Some(["filepath"]), true, Get, e.resourceName, None)
  }

  /** The template writes the docstring of every entry (none has its own),
      and every entry asks for a `save_` sibling (none sets the flag). */
  lemma PrepareEntry(e: Entry)
    ensures var b := ToBinding(e);
      && PrepareBinding(b, Some(MethodDocstring)) == Ok(Documented(e))
      && Prepared(b, Some(MethodDocstring)) == Documented(e)
      && CreatesSave(b)
  {
    var b := ToBinding(e);
    DocstringSource();
    RenderEntry(e);
    assert "docstring" !in b && "create_save_method" !in b;
    assert !TruthyKey(b, "docstring");
    assert FieldsPresent(MethodDocstring, b);
    assert Documented(e) - {"create_save_method"} == Documented(e);
  }

  lemma DetailsOfEntry(e: Entry)
    ensures ToDetails(Documented(e)) == Ok(EntryDetails(e))
  {
    var b := Documented(e);
    assert b["name"] == PyStr(Name(e)) && b["endpoint"] == PyStr(PathText(e.endpoint));
    assert b["docstring"] == PyStr(DocFor(e));
    assert "extra_params" !in b && "raise_for_status" !in b && "request_method" !in b && "response_key" !in b;
    assert StrOrDefault(b, "exec_method", "_request") == Ok(ExecOf(e));
    assert OptionalStr(b, "resource_name") == Ok(e.resourceName);
  }

  /** The dict of an entry's `save_` sibling. */
  function SiblingBinding(e: Entry): Binding {
    Documented(e)["name" := PyStr(SaveNameAsWritten(Name(e)))]["exec_method" := PyStr(ExecOf(e) + "_and_save")]
      ["extra_params" := PyList([PyStr("filepath")])]["docstring" := PyStr(DocFor(e) + SaveSuffix)]
  }

  lemma SiblingOfEntry(e: Entry)
    ensures CreateSaveMethodFrom(Documented(e)) == Ok(SiblingBinding(e))
  {
    var b := Documented(e);
    assert b["name"] == PyStr(Name(e));
    assert !TruthyKey(b, "extra_params") && TruthyKey(b, "docstring");
    assert ToStr(DictGet(b, "exec_method", PyStr("_request"))) == ExecOf(e);
    assert ToStr(b["docstring"]) == DocFor(e);
    assert [] + [PyStr("filepath")] == [PyStr("filepath")];
  }

  lemma SiblingFields(e: Entry)
    ensures var b := SiblingBinding(e);
      && b["name"] == PyStr(SaveNameAsWritten(Name(e))) && b["endpoint"] == PyStr(PathText(e.endpoint))
      && b["docstring"] == PyStr(DocFor(e) + SaveSuffix)
      && "raise_for_status" !in b && "request_method" !in b && "response_key" !in b
      && b["extra_params"] == PyList([PyStr("filepath")])
      && b["exec_method"] == PyStr(ExecOf(e) + "_and_save")
      && OptionalStr(b, "resource_name") == Ok(e.resourceName)
  {
  }

  lemma DetailsOfSibling(e: Entry)
    ensures ToDetails(SiblingBinding(e)) == Ok(SiblingDetails(e))
  {
    var b := SiblingBinding(e);
    SiblingFields(e);
    assert OptionalStrList(b, "extra_params") == Ok(Some(["filepath"])) by {
      assert AllStr([PyStr("filepath")]);
      assert Strs([PyStr("filepath")]) == ["filepath"];
    }
    assert StrOrDefault(b, "exec_method", "_request") == Ok(ExecOf(e) + "_and_save");
  }

  /** Every entry's iteration of the expansion loop succeeds. */
  lemma EntryStepOk(e: Entry)
    ensures ExtendOne(ToBinding(e), Some(MethodDocstring)).emitted.Ok?
  {
    PrepareEntry(e);
    SiblingOfEntry(e);
  }

  /** Where an entry is placed, its documented dict stands, followed by its
      sibling. */
  lemma PlacedEntry(e: Entry, ext: seq<Binding>, k: nat)
    requires PlacedAt(ToBinding(e), Some(MethodDocstring), ext, k)
    ensures k + 1 < |ext| && ext[k] == Documented(e) && ext[k + 1] == SiblingBinding(e)
  {
    PrepareEntry(e);
    SiblingOfEntry(e);
  }

  /** No entry's dict has `create_save_method`, so entry `i` is placed at
      `2 * i`. */
  lemma EntryOffsets(es: seq<Entry>)
    ensures CountSaved(Bindings(es)) == |es|
    ensures forall i :: 0 <= i <= |es| ==> Offset(Bindings(es), i) == 2 * i
  {
    var bs := Bindings(es);
    AllCreate(bs);
    forall i | 0 <= i <= |es| ensures Offset(bs, i) == 2 * i {
      AllCreate(bs[..i]);
    }
  }

  /** A list of entries expands to twice as many dicts, each entry followed
      by its `save_` sibling. */
  lemma EntriesExpand(es: seq<Entry>)
    ensures var tpl := Some(MethodDocstring);
      var ext := ExpandAll(Bindings(es), tpl).extended;
      && ext.Ok?
      && |ext.value| == 2 * |es|
      && forall i :: 0 <= i < |es| ==>
           ext.value[2 * i] == Documented(es[i]) && ext.value[2 * i + 1] == SiblingBinding(es[i])
  {
    var tpl := Some(MethodDocstring);
    var bs := Bindings(es);
    assert ExpandAll(bs, tpl).extended.Ok? by {
      forall i | 0 <= i < |bs| ensures ExtendOne(bs[i], tpl).emitted.Ok? {
        EntryStepOk(es[i]);
      }
      ExpandAllSucceeds(bs, tpl);
    }
    ExpansionLayout(bs, tpl);
    EntryOffsets(es);
    var ext := ExpandAll(bs, tpl).extended.value;
    forall i | 0 <= i < |es|
      ensures ext[2 * i] == Documented(es[i]) && ext[2 * i + 1] == SiblingBinding(es[i])
    {
      assert PlacedAt(bs[i], tpl, ext, Offset(bs, i));
      PlacedEntry(es[i], ext, 2 * i);
    }
  }

  /** The records of a list of entries: for each entry its own record, then
      the record of its `save_` sibling. */
  lemma EntriesRecords(es: seq<Entry>)
    ensures var r := GetAndExtend(Bindings(es), Some(MethodDocstring)).0;
      && r.Ok?
      && |r.value| == 2 * |es|
      && forall i :: 0 <= i < |es| ==>
           r.value[2 * i] == EntryDetails(es[i]) && r.value[2 * i + 1] == SiblingDetails(es[i])
  {
    EntriesExpand(es);
    PairsValidate(es, ExpandAll(Bindings(es), Some(MethodDocstring)).extended.value);
  }

  /** A list made of each entry's dict followed by its sibling's validates
      into each entry's record followed by its sibling's. */
  lemma PairsValidate(es: seq<Entry>, ext: seq<Binding>)
    requires |ext| == 2 * |es|
    requires forall i :: 0 <= i < |es| ==> ext[2 * i] == Documented(es[i]) && ext[2 * i + 1] == SiblingBinding(es[i])
    ensures var r := AllDetails(ext);
      && r.Ok?
      && |r.value| == 2 * |es|
      && forall i :: 0 <= i < |es| ==>
           r.value[2 * i] == EntryDetails(es[i]) && r.value[2 * i + 1] == SiblingDetails(es[i])
  {
    forall k | 0 <= k < |ext| ensures ToDetails(ext[k]).Ok? {
      var i := k / 2;
      DetailsOfEntry(es[i]);
      DetailsOfSibling(es[i]);
      assert k == 2 * i || k == 2 * i + 1;
    }
    var r := AllDetails(ext).value;
    forall i | 0 <= i < |es|
      ensures r[2 * i] == EntryDetails(es[i]) && r[2 * i + 1] == SiblingDetails(es[i])
    {
      DetailsOfEntry(es[i]);
      DetailsOfSibling(es[i]);
    }
  }

  /** The client's 34 operations, in table order: for each entry its own
      record, then the record of its `save_` sibling. */
  lemma TableRecords()
    ensures var r := GetAndExtend(MethodsBinding(), Some(MethodDocstring)).0;
      && r.Ok?
      && |r.value| == 34
      && forall i :: 0 <= i < |Table| ==>
           r.value[2 * i] == EntryDetails(Table[i]) && r.value[2 * i + 1] == SiblingDetails(Table[i])
  {
    EntriesRecords(Table);
  }

  /** The exec strategies `SkillcornerClient` has: those it inherits from
      `FitRequest` and the two tracking-data ones it defines. */
  const ClientAttributes: set<string> :=
    {"_request", "_request" + "_and_save", "_get_tracking_data", "_get_tracking_data" + "_and_save"}

  lemma ExecKnown(e: Entry)
    requires e.execMethod == None || e.execMethod == Some("_get_tracking_data")
    ensures EntryDetails(e).execMethod in ClientAttributes
    ensures SiblingDetails(e).execMethod in ClientAttributes
  {
  }

  /** Entries that name no exec method or the tracking one yield only
      operations whose exec strategy the client has. */
  lemma EntriesBuild(es: seq<Entry>)
    requires forall i :: 0 <= i < |es| ==> es[i].execMethod == None || es[i].execMethod == Some("_get_tracking_data")
    ensures var r := GetAndExtend(Bindings(es), Some(MethodDocstring)).0;
      r.Ok? && BuildNamespace(map[], r.value, ClientAttributes) == Ok(Register(map[], r.value))
  {
    EntriesRecords(es);
    RecordsKnown(es, GetAndExtend(Bindings(es), Some(MethodDocstring)).0.value);
  }

  lemma RecordsKnown(es: seq<Entry>, ds: seq<MethodDetails>)
    requires forall i :: 0 <= i < |es| ==> es[i].execMethod == None || es[i].execMethod == Some("_get_tracking_data")
    requires |ds| == 2 * |es|
    requires forall i :: 0 <= i < |es| ==> ds[2 * i] == EntryDetails(es[i]) && ds[2 * i + 1] == SiblingDetails(es[i])
    ensures BuildNamespace(map[], ds, ClientAttributes) == Ok(Register(map[], ds))
  {
    forall j | 0 <= j < |ds| ensures ds[j].execMethod in ClientAttributes {
      var i := j / 2;
      ExecKnown(es[i]);
      assert j == 2 * i || j == 2 * i + 1;
    }
  }

  lemma TableExecs()
    ensures forall i :: 0 <= i < |Table| ==> Table[i].execMethod == None || Table[i].execMethod == Some("_get_tracking_data")
  {
  }

  /** Every operation the table yields names an exec strategy the client
      has, so creating the client type attaches all 34 of them. */
  lemma TableBuilds()
    ensures var r := GetAndExtend(MethodsBinding(), Some(MethodDocstring)).0;
      r.Ok? && BuildNamespace(map[], r.value, ClientAttributes) == Ok(Register(map[], r.value))
  {
    TableExecs();
    EntriesBuild(Table);
  }

  /** A subject that is not empty and does not end in `_`: its names keep
      their text under `strip('_')`. */
  predicate SubjectTrimmed(subject: string) {
    subject != [] && subject[|subject| - 1] != '_'
  }

  lemma TableSubjectsTrimmed()
    ensures forall i :: 0 <= i < |Table| ==> SubjectTrimmed(Table[i].subject)
  {
  }

  lemma StripKeeps(s: string)
    requires s != [] && s[0] != '_' && s[|s| - 1] != '_'
    ensures Strip(s, '_') == s
  {
  }

  /** The public names of an entry's two operations are `get_<subject>` and
      `save_<subject>`. */
  lemma PublicNamesOfEntry(e: Entry)
    requires SubjectTrimmed(e.subject)
    requires SaveNameAsWritten(Name(e)) == "save_" + e.subject
    ensures PublicName(EntryDetails(e)) == "get_" + e.subject
    ensures PublicName(SiblingDetails(e)) == "save_" + e.subject
  {
    StripKeeps("get_" + e.subject);
    StripKeeps("save_" + e.subject);
  }

  /** Two names made of a prefix and a subject differ when the prefixes
      start differently or the prefixes agree and the subjects differ. */
  lemma PrefixedDiffer(p: string, a: string, q: string, b: string)
    requires p != [] && q != []
    requires (p[0] != q[0]) || (p == q && a != b)
    ensures p + a != q + b
  {
    if p[0] != q[0] {
      assert (p + a)[0] == p[0] && (q + b)[0] == q[0];
    } else {
      assert (p + a)[|p|..] == a && (q + b)[|q|..] == b;
    }
  }

  /** What is required of a run of entries and the records they expand to:
      each entry's record followed by its sibling's, distinct subjects that
      do not end in `_`, and `save_` names as intended. */
  predicate Expanded(es: seq<Entry>, ds: seq<MethodDetails>) {
    && |ds| == 2 * |es|
    && (forall i :: 0 <= i < |es| ==> ds[2 * i] == EntryDetails(es[i]) && ds[2 * i + 1] == SiblingDetails(es[i]))
    && (forall i :: 0 <= i < |es| ==>
          SubjectTrimmed(es[i].subject) && SaveNameAsWritten(Name(es[i])) == "save_" + es[i].subject)
    && (forall i, j :: 0 <= i < j < |es| ==> es[i].subject != es[j].subject)
  }

  /** The prefix of the public name of the record at position `k`. */
  function Prefix(k: nat): string {
    if k % 2 == 0 then "get_" else "save_"
  }

  lemma RecordNameEven(es: seq<Entry>, ds: seq<MethodDetails>, i: nat)
    requires Expanded(es, ds)
    requires i < |es|
    ensures PublicName(ds[2 * i]) == "get_" + es[i].subject
  {
    assert ds[2 * i] == EntryDetails(es[i]);
    PublicNamesOfEntry(es[i]);
  }

  lemma RecordNameOdd(es: seq<Entry>, ds: seq<MethodDetails>, i: nat)
    requires Expanded(es, ds)
    requires i < |es|
    ensures PublicName(ds[2 * i + 1]) == "save_" + es[i].subject
  {
    assert ds[2 * i + 1] == SiblingDetails(es[i]);
    PublicNamesOfEntry(es[i]);
  }

  lemma RecordName(es: seq<Entry>, ds: seq<MethodDetails>, k: nat)
    requires Expanded(es, ds)
    requires k < |ds|
    ensures k / 2 < |es|
    ensures PublicName(ds[k]) == Prefix(k) + es[k / 2].subject
  {
    var i := k / 2;
    if k % 2 == 0 {
      assert k == 2 * i;
      RecordNameEven(es, ds, i);
    } else {
      assert k == 2 * i + 1;
      RecordNameOdd(es, ds, i);
    }
  }

  /** Names at positions `k < l` of the expansion differ when their
      subjects differ for different entries. */
  lemma PrefixedNamesDiffer(k: nat, l: nat, sk: string, sl: string)
    requires k < l
    requires k / 2 != l / 2 ==> sk != sl
    ensures Prefix(k) + sk != Prefix(l) + sl
  {
    if k / 2 == l / 2 {
      assert k % 2 == 0 && l % 2 == 1;
      PrefixedDiffer("get_", sk, "save_", sl);
    } else {
      PrefixedDiffer(Prefix(k), sk, Prefix(l), sl);
    }
  }

  lemma RecordNamesDiffer(es: seq<Entry>, ds: seq<MethodDetails>, k: nat, l: nat)
    requires Expanded(es, ds)
    requires k < l < |ds|
    ensures PublicName(ds[k]) != PublicName(ds[l])
  {
    RecordName(es, ds, k);
    RecordName(es, ds, l);
    assert k / 2 <= l / 2;
    assert k / 2 != l / 2 ==> es[k / 2].subject != es[l / 2].subject;
    PrefixedNamesDiffer(k, l, es[k / 2].subject, es[l / 2].subject);
  }

  /** The records of entries with distinct trimmed subjects, each followed by
      its sibling, have pairwise distinct public names. */
  lemma RecordNamesDistinct(es: seq<Entry>, ds: seq<MethodDetails>)
    requires Expanded(es, ds)
    ensures forall k, l :: 0 <= k < l < |ds| ==> PublicName(ds[k]) != PublicName(ds[l])
  {
    forall k, l | 0 <= k < l < |ds| ensures PublicName(ds[k]) != PublicName(ds[l]) {
      RecordNamesDiffer(es, ds, k, l);
    }
  }

  /** Registering such records gives one operation per record, and each
      entry's `get_` and `save_` names find its own two operations. */
  lemma ExpandedLookup(es: seq<Entry>, ds: seq<MethodDetails>)
    requires Expanded(es, ds)
    ensures |Register(map[], ds).Keys| == |ds|
    ensures forall k :: 0 <= k < |ds| ==>
      PublicName(ds[k]) in Register(map[], ds) && Register(map[], ds)[PublicName(ds[k])] == OperationOf(ds[k])
    ensures forall i :: 0 <= i < |es| ==>
      && "get_" + es[i].subject in Register(map[], ds)
      && Register(map[], ds)["get_" + es[i].subject] == OperationOf(EntryDetails(es[i]))
      && "save_" + es[i].subject in Register(map[], ds)
      && Register(map[], ds)["save_" + es[i].subject] == OperationOf(SiblingDetails(es[i]))
  {
    RecordNamesDistinct(es, ds);
    RegisterDistinct(ds);
    forall i | 0 <= i < |es|
      ensures && "get_" + es[i].subject in Register(map[], ds)
              && Register(map[], ds)["get_" + es[i].subject] == OperationOf(EntryDetails(es[i]))
              && "save_" + es[i].subject in Register(map[], ds)
              && Register(map[], ds)["save_" + es[i].subject] == OperationOf(SiblingDetails(es[i]))
    {
      RecordNameEven(es, ds, i);
      RecordNameOdd(es, ds, i);
      assert ds[2 * i] == EntryDetails(es[i]) && ds[2 * i + 1] == SiblingDetails(es[i]);
    }
  }

  /** The 34 operations the table yields have distinct public names, so the
      client carries 34 attributes: `get_<subject>` is the entry's own
      operation and `save_<subject>` its sibling, for every entry. */
  lemma TableLookup()
    ensures var r := GetAndExtend(MethodsBinding(), Some(MethodDocstring)).0;
      && r.Ok?
      && |r.value| == 34
      && |Register(map[], r.value).Keys| == 34
      && (forall k :: 0 <= k < 34 ==>
            PublicName(r.value[k]) in Register(map[], r.value)
            && Register(map[], r.value)[PublicName(r.value[k])] == OperationOf(r.value[k]))
      && forall i :: 0 <= i < |Table| ==>
           && "get_" + Table[i].subject in Register(map[], r.value)
           && Register(map[], r.value)["get_" + Table[i].subject] == OperationOf(EntryDetails(Table[i]))
           && "save_" + Table[i].subject in Register(map[], r.value)
           && Register(map[], r.value)["save_" + Table[i].subject] == OperationOf(SiblingDetails(Table[i]))
  {
    var r := GetAndExtend(MethodsBinding(), Some(MethodDocstring)).0;
    TableRecords();
    TableSubjectsTrimmed();
    TableSaveNamesAgree();
    SubjectsDistinct();
    assert Expanded(Table, r.value);
    ExpandedLookup(Table, r.value);
  }
}
