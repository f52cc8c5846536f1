/** The recommendations page's presentation logic: the colour band of a
    match percentage, and the choice between the generated list and the
    two built-in sample courses. */
module MatchBand {

  /** The three bands a match percentage falls into. */
  datatype Band = Orange | Yellow | Green

  /** The bands in increasing order of match. */
  function Rank(b: Band): nat {
    match b
    case Orange => 0
    case Yellow => 1
    case Green => 2
  }

  /** The reference classification: 90 and above, 80 up to 90, below 80. */
  function BandOf(percentage: real): (b: Band)
    ensures b == Green <==> percentage >= 90.0
    ensures b == Yellow <==> 80.0 <= percentage < 90.0
    ensures b == Orange <==> percentage < 80.0
  {
    if percentage >= 90.0 then Green else if percentage >= 80.0 then Yellow else Orange
  }

  /** `getMatchColor`. */
  function MatchColor(percentage: real): string {
    if percentage >= 90.0 then "text-green-400"
    else if percentage >= 80.0 then "text-yellow-400"
    else "text-orange-400"
  }

  /** `getMatchBgColor`. */
  function MatchBgColor(percentage: real): string {
    if percentage >= 90.0 then "bg-green-400/20"
    else if percentage >= 80.0 then "bg-yellow-400/20"
    else "bg-orange-400/20"
  }

  function TextClass(b: Band): string {
    match b
    case Green => "text-green-400"
    case Yellow => "text-yellow-400"
    case Orange => "text-orange-400"
  }

  function BgClass(b: Band): string {
    match b
    case Green => "bg-green-400/20"
    case Yellow => "bg-yellow-400/20"
    case Orange => "bg-orange-400/20"
  }

  /** Both colour functions pick the class of the percentage's band. */
  lemma ColoursFollowBand(percentage: real)
    ensures MatchColor(percentage) == TextClass(BandOf(percentage))
    ensures MatchBgColor(percentage) == BgClass(BandOf(percentage))
  {
  }

  /** The text colour and the background colour always agree: two
      percentages share a text colour exactly when they share a
      background colour, and exactly when they share a band. */
  lemma ColoursAgree(p: real, q: real)
    ensures MatchColor(p) == MatchColor(q) <==> BandOf(p) == BandOf(q)
    ensures MatchBgColor(p) == MatchBgColor(q) <==> BandOf(p) == BandOf(q)
  {
    ColoursFollowBand(p);
    ColoursFollowBand(q);
    TextClassInjective(BandOf(p), BandOf(q));
    BgClassInjective(BandOf(p), BandOf(q));
  }

  lemma TextClassInjective(a: Band, b: Band)
    ensures TextClass(a) == TextClass(b) <==> a == b
  {
    if a != b {
      assert TextClass(a)[5] != TextClass(b)[5] || |TextClass(a)| != |TextClass(b)|;
    }
  }

  lemma BgClassInjective(a: Band, b: Band)
    ensures BgClass(a) == BgClass(b) <==> a == b
  {
    if a != b {
      assert BgClass(a)[3] != BgClass(b)[3];
    }
  }

  /** A higher percentage never falls into a lower band. */
  lemma BandMonotone(p: real, q: real)
    requires p <= q
    ensures Rank(BandOf(p)) <= Rank(BandOf(q))
  {
  }

  /** One course card. */
  datatype CourseRecommendation = CourseRecommendation(
    id: string,
    title: string,
    university: string,
    field: string,
    matchPercentage: real,
    duration: string,
    location: string,
    description: string,
    keySubjects: seq<string>,
    careerProspects: seq<string>,
    entryRequirements: string,
    averageSalary: string,
    employmentRate: string)

  function ComputerScience(): CourseRecommendation {
    CourseRecommendation(
      "1", "Computer Science", "University of Technology", "Technology", 95.0, "4 years", "City Campus",
      "Comprehensive program " + "covering software " + "development, algorithms, " + "data structures, and " + "emerging technologies.",
      ["Programming", "Data Structures", "Machine Learning", "Software Engineering"],
      ["Software Developer", "Data Scientist", "AI Engineer", "System Architect"],
      "Mathematics, Physics, English", "$75,000 - $120,000", "92%")
  }

  function BusinessAdministration(): CourseRecommendation {
    CourseRecommendation(
      "2", "Business Administration", "Metropolitan University", "Business", 88.0, "3 years", "Downtown Campus",
      "Strategic business " + "management program with " + "focus on leadership, " + "finance, and " + "entrepreneurship.",
      ["Management", "Finance", "Marketing", "Business Strategy"],
      ["Business Manager", "Consultant", "Entrepreneur", "Financial Analyst"],
      "Mathematics, English, " + "Economics", "$60,000 - $95,000", "87%")
  }

  /** The sample list shown when nothing was generated. */
  function MockRecommendations(): seq<CourseRecommendation> {
    [ComputerScience(), BusinessAdministration()]
  }

  /** `displayRecommendations`. */
  function DisplayRecommendations(recommendations: seq<CourseRecommendation>): (r: seq<CourseRecommendation>)
    ensures |recommendations| > 0 ==> r == recommendations
    ensures |recommendations| == 0 ==> r == MockRecommendations()
  {
    if |recommendations| > 0 then recommendations else MockRecommendations()
  }

  /** The page always has at least one card, and every card it shows is
      either a generated one or one of the two samples, never a mix. */
  lemma DisplayNeverEmpty(recommendations: seq<CourseRecommendation>)
    ensures |DisplayRecommendations(recommendations)| >= 1
    ensures DisplayRecommendations(recommendations) == recommendations
        <==> |recommendations| > 0
  {
  }

  /** The samples carry ids '1' and '2' and show as one green and one
      yellow card. */
  lemma MockBands()
    ensures MockRecommendations()[0].id == "1" && MockRecommendations()[1].id == "2"
    ensures BandOf(MockRecommendations()[0].matchPercentage) == Green
    ensures BandOf(MockRecommendations()[1].matchPercentage) == Yellow
  {
  }
}
