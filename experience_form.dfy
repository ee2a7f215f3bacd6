/** What the add and edit experience pages share
    (src/pages/admin/AddExperiencePage.tsx and
    src/pages/admin/EditExperiencePage.tsx): the field check, the
    comma-separated skills box and the row they send. */
module ExperienceForm {
  import opened Common
  import opened Text
  import opened Seqs
  import opened Views
  import opened Supabase

  /** The form's eight inputs; the skills are one comma-separated string. */
  datatype Fields = Fields(
    company: string,
    position: string,
    description: string,
    startDate: string,
    endDate: string,
    current: bool,
    skills: string,
    location: string)

  const BlankFields: Fields := Fields("", "", "", "", "", false, "", "")

  /** `!company || !position || !description || !startDate || !location`. */
  predicate RequiredPresent(f: Fields) {
    f.company != "" && f.position != "" && f.description != "" && f.startDate != "" && f.location != ""
  }

  /** Which of the two checks stops a submit, in the order they run. */
  datatype Verdict = MissingRequired | EndDateRequired | Accepted

  /** The required-field check comes first, then the end date is demanded
      unless the position is current. */
  function Validate(f: Fields): (v: Verdict)
    ensures v == MissingRequired <==> !RequiredPresent(f)
    ensures v == EndDateRequired <==> RequiredPresent(f) && !f.current && f.endDate == ""
    ensures v == Accepted <==> RequiredPresent(f) && (f.current || f.endDate != "")
  {
    if !RequiredPresent(f) then MissingRequired
    else if !f.current && f.endDate == "" then EndDateRequired
    else Accepted
  }

  /** `pieces.map(s => s.trim())`. */
  function MapTrim(xs: seq<string>): (r: seq<string>)
    ensures |r| == |xs|
    ensures forall i :: 0 <= i < |xs| ==> r[i] == Trim(xs[i])
    decreases |xs|
  {
    if xs == [] then [] else [Trim(xs[0])] + MapTrim(xs[1..])
  }

  /** A skill the parser can produce. */
  predicate IsSkill(s: string) {
    s != "" && IsTrimmed(s) && ',' !in s
  }

  /** Every element is a skill. */
  predicate AllSkills(xs: seq<string>) {
    forall i :: 0 <= i < |xs| ==> IsSkill(xs[i])
  }

  /** `s => s.length > 0`. */
  predicate NonEmpty(s: string) {
    |s| > 0
  }

  /** Trimming never brings in a character the string did not have. */
  lemma TrimKeepsOut(t: string, c: char)
    requires c !in t
    ensures c !in Trim(t)
  {
    var r := Trim(t);
    assert r == t[TrimOffset(t)..TrimOffset(t) + |r|];
  }

  /** The pieces' trimmed, non-empty texts, in order. */
  function SkillsOfPieces(pieces: seq<string>): seq<string> {
    Filter(MapTrim(pieces), NonEmpty)
  }

  /** Comma-free pieces give skills. */
  lemma PiecesGiveSkills(pieces: seq<string>)
    requires forall i :: 0 <= i < |pieces| ==> ',' !in pieces[i]
    ensures AllSkills(SkillsOfPieces(pieces))
  {
    var trimmed := MapTrim(pieces);
    var r := Filter(trimmed, NonEmpty);
    forall i | 0 <= i < |r|
      ensures IsSkill(r[i])
    {
      assert r[i] in r;
      var j :| 0 <= j < |trimmed| && trimmed[j] == r[i];
      TrimKeepsOut(pieces[j], ',');
    }
  }

  /** A first piece with something in it leads the skills. */
  lemma SkillsOfCons(a: string, pieces: seq<string>)
    requires Trim(a) != ""
    ensures SkillsOfPieces([a] + pieces) == [Trim(a)] + SkillsOfPieces(pieces)
  {
    assert ([a] + pieces)[1..] == pieces;
    FilterCons(Trim(a), MapTrim(pieces), NonEmpty);
  }

  /** `skills.split(',').map(s => s.trim()).filter(s => s.length > 0)`. */
  function ParseSkills(s: string): seq<string> {
    SkillsOfPieces(Split(s, ','))
  }

  /** What the parser gives are skills, and they are exactly the trimmed
      pieces that have something in them, each as often as it was typed, in
      order. */
  lemma ParsedSkillsAreSkills(s: string)
    ensures AllSkills(ParseSkills(s))
    ensures IsSubsequence(ParseSkills(s), MapTrim(Split(s, ',')))
    ensures forall x :: multiset(ParseSkills(s))[x] == if x != "" then multiset(MapTrim(Split(s, ',')))[x] else 0
  {
    PiecesGiveSkills(Split(s, ','));
    FilterIsSubsequence(MapTrim(Split(s, ',')), NonEmpty);
    FilterCounts(MapTrim(Split(s, ',')), NonEmpty);
  }

  /** `skills.join(', ')`, how a stored list is shown in the box. */
  function JoinSkills(xs: seq<string>): string {
    Join(xs, ", ")
  }

  /** A comma-free string with something in it parses to its trimmed self. */
  lemma ParseSingle(a: string)
    requires ',' !in a && Trim(a) != ""
    ensures ParseSkills(a) == [Trim(a)]
  {
    SplitPrefix(a, "", ',');
    assert a + "" == a;
    assert Split(a, ',') == [a] + [];
    SkillsOfCons(a, []);
  }

  /** Splitting a comma-free piece, a comma and the rest: the piece, then the
      rest's pieces. */
  lemma SplitCons(a: string, t: string)
    requires ',' !in a
    ensures Split(a + ([','] + t), ',') == [a] + Split(t, ',')
  {
    SplitPrefix(a, [','] + t, ',');
    SplitAtSeparator(t, ',');
    var st := Split([','] + t, ',');
    assert st[0] == "" && st[1..] == Split(t, ',');
    assert a + st[0] == a;
  }

  /** A comma-free piece with something in it, then a comma, then the rest:
      the piece's trimmed text comes first, then the rest's skills. */
  lemma ParseCons(a: string, t: string)
    requires ',' !in a && Trim(a) != ""
    ensures ParseSkills(a + ([','] + t)) == [Trim(a)] + ParseSkills(t)
  {
    SplitCons(a, t);
    SkillsOfCons(a, Split(t, ','));
  }

  /** Joined skills after a prefix: the prefix and the first skill, a comma,
      then a space and the rest joined. */
  lemma JoinStep(p: string, xs: seq<string>)
    requires |xs| > 1
    ensures p + JoinSkills(xs) == (p + xs[0]) + ([','] + (" " + JoinSkills(xs[1..])))
  {
    assert JoinSkills(xs) == xs[0] + ", " + JoinSkills(xs[1..]);
  }

  /** White space and one skill parse to that skill. */
  lemma ParseOne(p: string, xs: seq<string>)
    requires AllWhiteSpace(p) && ',' !in p && |xs| == 1 && IsSkill(xs[0])
    ensures ParseSkills(p + JoinSkills(xs)) == xs
  {
    var x := xs[0];
    assert xs == [x];
    assert ',' !in p + x;
    TrimWhiteSpacePrefix(p, x);
    ParseSingle(p + x);
  }

  /** White space before a skill: no comma, and trimming gives the skill. */
  lemma HeadPiece(p: string, x: string)
    requires AllWhiteSpace(p) && ',' !in p && IsSkill(x)
    ensures ',' !in p + x && Trim(p + x) == x
  {
    assert ',' !in p + x;
    TrimWhiteSpacePrefix(p, x);
  }

  /** White space and two or more joined skills parse to those skills once
      the text after the first comma parses to the rest of them. */
  lemma ParseStep(p: string, xs: seq<string>)
    requires AllWhiteSpace(p) && ',' !in p && |xs| > 1 && IsSkill(xs[0])
    requires ParseSkills(" " + JoinSkills(xs[1..])) == xs[1..]
    ensures ParseSkills(p + JoinSkills(xs)) == xs
  {
    var a := p + xs[0];
    var t := " " + JoinSkills(xs[1..]);
    HeadPiece(p, xs[0]);
    JoinStep(p, xs);
    assert p + JoinSkills(xs) == a + ([','] + t);
    ParseCons(a, t);
    assert ParseSkills(a + ([','] + t)) == [xs[0]] + xs[1..];
    assert xs == [xs[0]] + xs[1..];
  }

  /** Parsing white space followed by joined skills gives those skills back. */
  lemma {:induction false} ParseAfterWhiteSpace(p: string, xs: seq<string>)
    requires AllWhiteSpace(p) && ',' !in p
    requires xs != [] && AllSkills(xs)
    ensures ParseSkills(p + JoinSkills(xs)) == xs
    decreases |xs|
  {
    if |xs| == 1 {
      ParseOne(p, xs);
    } else {
      assert AllWhiteSpace(" ") && ',' !in " ";
      ParseAfterWhiteSpace(" ", xs[1..]);
      ParseStep(p, xs);
    }
  }

  /** A stored skill list shown joined with `', '` and saved back unchanged
      is the same list, provided each skill is one the parser could have
      produced. */
  lemma SkillsRoundTrip(xs: seq<string>)
    requires AllSkills(xs)
    ensures ParseSkills(JoinSkills(xs)) == xs
  {
    if xs != [] {
      ParseAfterWhiteSpace("", xs);
      assert "" + JoinSkills(xs) == JoinSkills(xs);
    } else {
      assert Split("", ',') == [""];
      assert MapTrim([""]) == [""];
    }
  }

  /** The row both pages send. */
  datatype Row = Row(
    company: string,
    position: string,
    description: string,
    startDate: string,
    endDate: Option<string>,
    current: bool,
    skills: seq<string>,
    location: string)

  /** The row: text fields as typed, `end_date` null for a current position
      and the typed end date otherwise, skills parsed from the box. */
  function RowOf(f: Fields): (r: Row)
    ensures r.company == f.company && r.position == f.position && r.description == f.description
    ensures r.startDate == f.startDate && r.location == f.location && r.current == f.current
    ensures f.current ==> r.endDate == None
    ensures !f.current ==> r.endDate == Some(f.endDate)
    ensures r.skills == ParseSkills(f.skills)
  {
    Row(f.company, f.position, f.description, f.startDate,
      if f.current then None else Some(f.endDate), f.current, ParseSkills(f.skills), f.location)
  }

  /** A validated row always has an end date or is marked current, and its
      end date is present exactly when it is not current. */
  lemma AcceptedRowHasEndDate(f: Fields)
    requires Validate(f) == Accepted
    ensures RowOf(f).current || Truthy(RowOf(f).endDate)
    ensures RowOf(f).endDate.Some? <==> !RowOf(f).current
  {
  }

  /** The fetch mapping on the edit page: a null end date becomes `''` and the
      skills are joined with `', '`. */
  function FieldsOf(e: Experience): Fields {
    Fields(e.company, e.position, e.description, e.startDate, EmptyIfNull(e.endDate), e.current,
      JoinSkills(e.skills), e.location)
  }

  /** Loading a stored experience and saving it straight back: the text
      fields and (for well-formed skills) the skill list come back unchanged;
      a current position's end date is dropped; a past position keeps its
      end date. */
  lemma LoadThenSaveRoundTrip(e: Experience)
    requires AllSkills(e.skills)
    ensures var r := RowOf(FieldsOf(e));
            r.company == e.company && r.position == e.position && r.description == e.description &&
            r.startDate == e.startDate && r.location == e.location && r.current == e.current &&
            r.skills == e.skills &&
            (e.current ==> r.endDate == None) &&
            (!e.current && Truthy(e.endDate) ==> r.endDate == e.endDate)
  {
    SkillsRoundTrip(e.skills);
  }

  /** What one submit did: the check's verdict, the row sent (only once
      accepted) and where the page went (only after a successful write). */
  datatype SaveResult = SaveResult(verdict: Verdict, row: Option<Row>, navigateTo: Option<string>)

  /** `handleSubmit` on either page, given the write's answer. */
  function Save(f: Fields, written: Status): (r: SaveResult)
    ensures r.verdict == Validate(f)
    ensures r.row.Some? <==> Validate(f) == Accepted
    ensures r.row.Some? ==> r.row.value == RowOf(f)
    ensures r.navigateTo.Some? <==> r.row.Some? && written == Success
    ensures r.navigateTo.Some? ==> r.navigateTo.value == AdminExperiencesRoute
  {
    var v := Validate(f);
    if v != Accepted then SaveResult(v, None, None)
    else SaveResult(v, Some(RowOf(f)), if written == Success then Some(AdminExperiencesRoute) else None)
  }
}
