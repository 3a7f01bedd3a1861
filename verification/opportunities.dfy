/**
 The opportunities page: the generated catalogue of scholarships, fellowships
 and jobs, the three list filters with the featured-then-score ordering, and
 the classification of an application link.

 The random parts of a generated item (its deadline and the random part of its
 match score) are inputs: one `Draw` per item.
 */
module Opportunities {
  import opened Text
  import opened Seqs

  // ===========================================================================
  // Data
  // ===========================================================================

  datatype OppType = Scholarship | Fellowship | Job

  /** The string stored in the item's `type` field. */
  function TypeName(t: OppType): string {
    match t
    case Scholarship => "scholarship"
    case Fellowship => "fellowship"
    case Job => "job"
  }

  datatype Difficulty = Easy | Medium | Hard

  function DifficultyName(d: Difficulty): string {
    match d
    case Easy => "Easy"
    case Medium => "Medium"
    case Hard => "Hard"
  }

  const Difficulties: seq<Difficulty> := [Easy, Medium, Hard]

  /** An organization an item is generated from. */
  datatype Template = Template(org: string, country: string, amount: string, url: string)

  const ScholarshipTemplates: seq<Template> := [
    Template("University of Toronto", "Canada", "$45,000/year", "https://www.utoronto.ca"),
    Template("Harvard University", "USA", "$50,000/year", "https://www.harvard.edu"),
    Template("Oxford University", "UK", "£35,000/year", "https://www.ox.ac.uk"),
    Template("ETH Zurich", "Switzerland", "CHF 40,000/year", "https://ethz.ch"),
    Template("University of Melbourne", "Australia", "AUD 35,000/year", "https://www.unimelb.edu.au"),
    Template("Sorbonne University", "France", "€25,000/year", "https://www.sorbonne.fr"),
    Template("Technical University Munich", "Germany", "€30,000/year", "https://www.tum.de"),
    Template("University of Tokyo", "Japan", "¥3,000,000/year", "https://www.u-tokyo.ac.jp/en/"),
    Template("National University Singapore", "Singapore", "SGD 40,000/year", "https://www.nus.edu.sg"),
    Template("University of Copenhagen", "Denmark", "DKK 200,000/year", "https://www.ku.dk/en/")
  ]

  const FellowshipTemplates: seq<Template> := [
    Template("Google", "USA", "$120,000", "https://about.google"),
    Template("Microsoft", "USA", "$115,000", "https://www.microsoft.com"),
    Template("United Nations", "USA", "$60,000", "https://www.un.org"),
    Template("World Bank", "USA", "$75,000", "https://www.worldbank.org"),
    Template("European Commission", "Belgium", "€55,000", "https://ec.europa.eu"),
    Template("CERN", "Switzerland", "CHF 65,000", "https://home.cern"),
    Template("Max Planck Institute", "Germany", "€45,000", "https://www.mpg.de/en"),
    Template("RIKEN", "Japan", "¥4,500,000", "https://www.riken.jp/en"),
    Template("A*STAR", "Singapore", "SGD 55,000", "https://www.a-star.edu.sg"),
    Template("CSIRO", "Australia", "AUD 60,000", "https://www.csiro.au")
  ]

  const JobTemplates: seq<Template> := [
    Template("VFS Global", "Global", "$70,000-$100,000", "https://www.vfsglobal.com/en/individuals/careers/index.html"),
    Template("Visa", "USA", "$80,000-$120,000", "https://corporate.visa.com/en/careers.html"),
    Template("USCIS (U.S. Citizenship and Immigration Services)", "USA", "$60,000-$100,000", "https://www.uscis.gov/about-us/careers/career-opportunities"),
    Template("ICE (U.S. Immigration and Customs Enforcement)", "USA", "$60,000-$100,000", "https://www.ice.gov/careers"),
    Template("NWIRP (Northwest Immigrant Rights Project)", "USA", "$50,000-$80,000", "https://www.nwirp.org/join/jobs-internships/"),
    Template("Envoy Global", "USA", "$70,000-$110,000", "https://www.envoyglobal.com/about-us/careers/"),
    Template("IOM (International Organization for Migration)", "Global", "$60,000-$100,000", "https://www.iom.int/iom-career-gateways"),
    Template("GVCW (Global Visa Center World)", "Greece", "$50,000-$80,000", "https://www.gvcworld.eu/form/career-opportunities"),
    Template("BAL Immigration Law", "USA", "$60,000-$100,000", "https://www.bal.com/careers/"),
    Template("Upwardly Global", "USA", "$50,000-$90,000", "https://www.upwardlyglobal.org")
  ]

  function Templates(kind: OppType): (r: seq<Template>)
    ensures |r| == 10
  {
    match kind
    case Scholarship => ScholarshipTemplates
    case Fellowship => FellowshipTemplates
    case Job => JobTemplates
  }

  const Subjects: seq<string> := [
    "Computer Science", "Engineering", "Medicine", "Business", "Law", "Arts",
    "Sciences", "Economics", "Psychology", "Environmental Studies"
  ]

  const Levels: seq<string> := ["Undergraduate", "Graduate", "PhD", "Postdoc", "Professional"]

  datatype Opportunity = Opportunity(
    id: string,
    kind: OppType,
    title: string,
    organization: string,
    location: string,
    country: string,
    description: string,
    requirements: seq<string>,
    benefits: seq<string>,
    deadline: string,
    amount: string,
    duration: string,
    applicationLink: string,
    difficulty: Difficulty,
    matchScore: int,
    tags: seq<string>,
    featured: bool)

  // ===========================================================================
  // Generation
  // ===========================================================================

  /**
   The random inputs of one item: `Math.floor(Math.random() * 30)`, which the
   score adds to 70, and the ISO date of a random day in the next 90 days.
   */
  datatype Draw = Draw(scoreOffset: int, deadline: string)

  predicate ValidDraw(d: Draw) {
    0 <= d.scoreOffset < 30
  }

  /** `${type}-${n}`. */
  function Id(kind: OppType, n: nat): string {
    TypeName(kind) + "-" + NatToString(n)
  }

  function Duration(kind: OppType): string {
    match kind
    case Job => "Full-time"
    case Fellowship => "12-24 months"
    case Scholarship => "2-4 years"
  }

  function Title(kind: OppType, subject: string, level: string): string {
    match kind
    case Scholarship => subject + " " + level + " Scholarship"
    case Fellowship => subject + " Research Fellowship"
    case Job => subject + " Specialist"
  }

  function Description(kind: OppType, subject: string, level: string, org: string): string {
    match kind
    case Scholarship =>
      "Full funding scholarship for " + Lower(level) + " studies in " + subject + " at " + org
      + ". Covers tuition, living expenses, and research opportunities."
    case Fellowship =>
      "Research fellowship program in " + subject + " at " + org
      + ". Work with leading researchers on cutting-edge projects."
    case Job =>
      "Join our team as a " + subject + " specialist at " + org
      + ". Help immigrants with specialized knowledge and expertise."
  }

  function Requirements(kind: OppType): seq<string> {
    match kind
    case Scholarship => ["Minimum GPA of 3.5/4.0", "English proficiency (IELTS 6.5+)", "Academic transcripts",
                         "Statement of purpose", "Two recommendation letters"]
    case Fellowship => ["PhD or equivalent experience", "2+ years research experience", "Published research papers",
                        "Strong analytical skills", "Valid work authorization"]
    case Job => ["3+ years relevant experience", "Professional certification", "Excellent communication skills",
                 "Multilingual abilities preferred", "Immigration knowledge"]
  }

  function Benefits(kind: OppType, amount: string): seq<string> {
    match kind
    case Scholarship => ["Full tuition coverage (" + amount + ")", "Monthly living allowance", "Health insurance",
                         "Research opportunities", "Mentorship program"]
    case Fellowship => ["Competitive salary (" + amount + ")", "Research funding", "Conference attendance",
                        "Networking opportunities", "Career development"]
    case Job => ["Competitive salary (" + amount + ")", "Health benefits", "Professional development",
                 "Remote work options", "Immigration support"]
  }

  /** Item `i` (0-based) of the generated list for `kind`. */
  function MakeOpportunity(kind: OppType, i: nat, draw: Draw): (r: Opportunity)
    requires ValidDraw(draw)
    ensures r.kind == kind && r.id == Id(kind, i + 1)
    ensures r.featured <==> i < 3
    ensures r.difficulty == Difficulties[i % 3]
    ensures var template := Templates(kind)[i % 10];
            && r.organization == template.org
            && r.country == template.country
            && r.applicationLink == template.url
    ensures r.country == "Global" ==> r.location == "Remote"
    ensures r.country != "Global" ==> r.location == r.country
    ensures r.duration == Duration(kind) && r.deadline == draw.deadline
    ensures 70 <= r.matchScore <= 99
  {
    var template := Templates(kind)[i % |Templates(kind)|];
    var subject := Subjects[i % |Subjects|];
    var level := Levels[i % |Levels|];
    Opportunity(
      Id(kind, i + 1), kind, Title(kind, subject, level), template.org,
      if template.country == "Global" then "Remote" else template.country,
      template.country, Description(kind, subject, level, template.org),
      Requirements(kind), Benefits(kind, template.amount), draw.deadline, template.amount,
      Duration(kind), template.url, Difficulties[i % |Difficulties|], draw.scoreOffset + 70,
      [subject, level, template.country, TypeName(kind), template.url], i < 3)
  }

  /** `generateMockOpportunities(type, count)`, with the random inputs of each item given. */
  function GenerateMockOpportunities(kind: OppType, count: nat, draws: seq<Draw>): (r: seq<Opportunity>)
    requires |draws| == count
    requires forall i :: 0 <= i < count ==> ValidDraw(draws[i])
    ensures |r| == count
    ensures forall i :: 0 <= i < count ==> r[i] == MakeOpportunity(kind, i, draws[i])
  {
    seq(count, i requires 0 <= i < count => MakeOpportunity(kind, i, draws[i]))
  }

  /** The kind of item `i` of the catalogue: 100 scholarships, then fellowships, then jobs. */
  function CatalogueKind(i: nat): OppType {
    if i < 100 then Scholarship else if i < 200 then Fellowship else Job
  }

  /** Position of item `i` of the catalogue within its kind's block. */
  function CatalogueIndex(i: nat): nat {
    if i < 100 then i else if i < 200 then i - 100 else i - 200
  }

  /** `mockOpportunities`: three generated blocks of 100. */
  function MockOpportunities(draws: seq<Draw>): (r: seq<Opportunity>)
    requires |draws| == 300
    requires forall i :: 0 <= i < 300 ==> ValidDraw(draws[i])
    ensures |r| == 300
    ensures forall i :: 0 <= i < 300 ==>
              r[i].kind == CatalogueKind(i) && r[i].id == Id(CatalogueKind(i), CatalogueIndex(i) + 1)
    ensures forall i :: 0 <= i < 300 ==> (r[i].featured <==> CatalogueIndex(i) < 3)
  {
    GenerateMockOpportunities(Scholarship, 100, draws[..100])
    + GenerateMockOpportunities(Fellowship, 100, draws[100..200])
    + GenerateMockOpportunities(Job, 100, draws[200..])
  }

  /** Ids of different kinds or numbers differ. */
  lemma IdInjective(k1: OppType, n1: nat, k2: OppType, n2: nat)
    requires k1 != k2 || n1 != n2
    ensures Id(k1, n1) != Id(k2, n2)
  {
    if k1 != k2 {
      assert Id(k1, n1)[0] == TypeName(k1)[0];
      assert Id(k2, n2)[0] == TypeName(k2)[0];
    } else if Id(k1, n1) == Id(k2, n2) {
      AppendCancel(TypeName(k1) + "-", NatToString(n1), NatToString(n2));
      NatToStringInjective(n1, n2);
    }
  }

  /** The 300 catalogue items have pairwise distinct ids. */
  lemma MockIdsDistinct(draws: seq<Draw>)
    requires |draws| == 300
    requires forall i :: 0 <= i < 300 ==> ValidDraw(draws[i])
    ensures forall i, j :: 0 <= i < j < 300 ==> MockOpportunities(draws)[i].id != MockOpportunities(draws)[j].id
  {
    forall i, j | 0 <= i < j < 300
      ensures MockOpportunities(draws)[i].id != MockOpportunities(draws)[j].id
    {
      IdInjective(CatalogueKind(i), CatalogueIndex(i) + 1, CatalogueKind(j), CatalogueIndex(j) + 1);
    }
  }

  // ===========================================================================
  // Filtering and ordering
  // ===========================================================================

  /** The filter fields `applyFilters` reads; "all" switches a filter off. */
  datatype Filters = Filters(kind: string, country: string, difficulty: string)

  const NoFilters: Filters := Filters("all", "all", "all")

  predicate KindOk(f: Filters, o: Opportunity) {
    f.kind == "all" || TypeName(o.kind) == f.kind
  }

  predicate CountryOk(f: Filters, o: Opportunity) {
    f.country == "all" || Contains(Lower(o.country), Lower(f.country))
  }

  predicate DifficultyOk(f: Filters, o: Opportunity) {
    f.difficulty == "all" || DifficultyName(o.difficulty) == f.difficulty
  }

  /** An item passes when it passes every active filter. */
  predicate Passes(f: Filters, o: Opportunity) {
    KindOk(f, o) && CountryOk(f, o) && DifficultyOk(f, o)
  }

  /** The three filter stages, each applied only when its filter is active. */
  function Stages(opportunities: seq<Opportunity>, f: Filters): seq<Opportunity> {
    var s1 := if f.kind != "all" then Filter(opportunities, (o: Opportunity) => TypeName(o.kind) == f.kind) else opportunities;
    var s2 := if f.country != "all" then Filter(s1, (o: Opportunity) => Contains(Lower(o.country), Lower(f.country))) else s1;
    if f.difficulty != "all" then Filter(s2, (o: Opportunity) => DifficultyName(o.difficulty) == f.difficulty) else s2
  }

  /** The staged filters are one filter by the conjunction of the active conditions. */
  lemma StagesAreOneFilter(opportunities: seq<Opportunity>, f: Filters)
    ensures Stages(opportunities, f) == Filter(opportunities, o => Passes(f, o))
  {
    var k := (o: Opportunity) => KindOk(f, o);
    var c := (o: Opportunity) => CountryOk(f, o);
    var d := (o: Opportunity) => DifficultyOk(f, o);
    var kc := (o: Opportunity) => KindOk(f, o) && CountryOk(f, o);
    var s1 := if f.kind != "all" then Filter(opportunities, (o: Opportunity) => TypeName(o.kind) == f.kind) else opportunities;
    var s2 := if f.country != "all" then Filter(s1, (o: Opportunity) => Contains(Lower(o.country), Lower(f.country))) else s1;
    if f.kind != "all" {
      FilterExt(opportunities, (o: Opportunity) => TypeName(o.kind) == f.kind, k);
    } else {
      FilterAll(opportunities, k);
    }
    assert s1 == Filter(opportunities, k);
    if f.country != "all" {
      FilterExt(s1, (o: Opportunity) => Contains(Lower(o.country), Lower(f.country)), c);
    } else {
      FilterAll(s1, c);
    }
    FilterFilter(opportunities, k, c, kc);
    assert s2 == Filter(opportunities, kc);
    if f.difficulty != "all" {
      FilterExt(s2, (o: Opportunity) => DifficultyName(o.difficulty) == f.difficulty, d);
    } else {
      FilterAll(s2, d);
    }
    FilterFilter(opportunities, kc, d, o => Passes(f, o));
  }

  /**
   `a` may stand before `b`: the comparator never puts `b` first. Featured
   items come first, and among items of equal featured status the higher
   match score comes first.
   */
  predicate InOrder(a: Opportunity, b: Opportunity) {
    (b.featured ==> a.featured) && (a.featured == b.featured ==> a.matchScore >= b.matchScore)
  }

  predicate Ordered(s: seq<Opportunity>) {
    forall i, j :: 0 <= i < j < |s| ==> InOrder(s[i], s[j])
  }

  /** Inserts `x` before the first item the comparator does not put strictly before it. */
  function Insert(x: Opportunity, s: seq<Opportunity>): (r: seq<Opportunity>)
    ensures multiset(r) == multiset(s) + multiset{x}
    ensures forall y :: y in r <==> y == x || y in s
  {
    if s == [] || InOrder(x, s[0]) then [x] + s
    else
      assert s == [s[0]] + s[1..];
      [s[0]] + Insert(x, s[1..])
  }

  /** Insertion into an ordered list keeps it ordered. */
  lemma {:induction false} InsertOrdered(x: Opportunity, s: seq<Opportunity>)
    requires Ordered(s)
    ensures Ordered(Insert(x, s))
  {
    if s == [] || InOrder(x, s[0]) {
      assert forall j :: 0 <= j < |s| ==> InOrder(x, s[j]);
    } else {
      var t := Insert(x, s[1..]);
      InsertOrdered(x, s[1..]);
      assert forall y :: y in t ==> InOrder(s[0], y);
      var r := [s[0]] + t;
      assert forall j :: 0 < j < |r| ==> r[j] == t[j - 1];
    }
  }

  /** A stable sort by the comparator (insertion from the right keeps equal items in input order). */
  function SortOpportunities(s: seq<Opportunity>): (r: seq<Opportunity>)
    ensures multiset(r) == multiset(s)
    ensures forall x :: x in r <==> x in s
  {
    if s == [] then []
    else
      assert s == [s[0]] + s[1..];
      Insert(s[0], SortOpportunities(s[1..]))
  }

  /** The sort's output is ordered by the comparator. */
  lemma {:induction false} SortOrdered(s: seq<Opportunity>)
    ensures Ordered(SortOpportunities(s))
  {
    if s != [] {
      SortOrdered(s[1..]);
      InsertOrdered(s[0], SortOpportunities(s[1..]));
    }
  }

  /**
   `applyFilters`: the items that pass every active filter, reordered so that
   featured items come first and scores never increase within each group.
   */
  function ApplyFilters(opportunities: seq<Opportunity>, f: Filters): (r: seq<Opportunity>)
    ensures Ordered(r)
    ensures multiset(r) == multiset(Filter(opportunities, o => Passes(f, o)))
    ensures forall o :: o in r <==> o in opportunities && Passes(f, o)
  {
    StagesAreOneFilter(opportunities, f);
    SortOrdered(Stages(opportunities, f));
    SortOpportunities(Stages(opportunities, f))
  }

  /** With every filter off, the page shows every item, only reordered. */
  lemma NoFiltersKeepsAll(opportunities: seq<Opportunity>)
    ensures multiset(ApplyFilters(opportunities, NoFilters)) == multiset(opportunities)
  {
    FilterAll(opportunities, o => Passes(NoFilters, o));
  }

  /** The country filter ignores the case of the filter text. */
  lemma CountryFilterIgnoresCase(opportunities: seq<Opportunity>, kind: string, country: string, difficulty: string)
    requires country != "all" && Lower(country) != "all"
    ensures ApplyFilters(opportunities, Filters(kind, Lower(country), difficulty))
            == ApplyFilters(opportunities, Filters(kind, country, difficulty))
  {
    LowerIdempotent(country);
    var f1 := Filters(kind, Lower(country), difficulty);
    var f2 := Filters(kind, country, difficulty);
    FilterExt(opportunities, o => Passes(f1, o), o => Passes(f2, o));
    StagesAreOneFilter(opportunities, f1);
    StagesAreOneFilter(opportunities, f2);
  }

  // ===========================================================================
  // Applying
  // ===========================================================================

  datatype ApplyAction =
    | SignInRequired
    | LinkUnavailable
    | OpenExternal(url: string)
    | NavigateTo(path: string)

  /** `/^https?:\/\//i`: the link begins with http:// or https://, in any letter case. */
  predicate IsExternal(url: string) {
    StartsWith(Lower(url), "http://") || StartsWith(Lower(url), "https://")
  }

  /**
   `handleApply`. The emptiness test looks at the link before trimming, so a
   blank link passes it and navigates to the empty path.
   */
  function HandleApply(authenticated: bool, link: string): (r: ApplyAction)
    ensures r == SignInRequired <==> !authenticated
    ensures r == LinkUnavailable <==> authenticated && link == ""
    ensures r.OpenExternal? <==> authenticated && link != "" && IsExternal(Trim(link))
    ensures r.OpenExternal? || r.NavigateTo? ==>
              (if r.OpenExternal? then r.url else r.path) == Trim(link)
  {
    if !authenticated then SignInRequired
    else if link == "" then LinkUnavailable
    else
      var url := Trim(link);
      if IsExternal(url) then OpenExternal(url) else NavigateTo(url)
  }
}
