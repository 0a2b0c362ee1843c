/**
  The application card of `src/components/ApplicationCard.tsx`: its header colour,
  the sex label, and which information sections each role sees. Formatting the
  birthdate goes through the browser's date library and is a parameter.
*/
module ApplicationCard {
  import opened Wrappers

  datatype Card = Card(
    companyName: string, zip: string, prefecture: string, city: string, tel: string, templateId: int,
    jobseekerName: Option<string>, jobseekerBirthdate: Option<string>, jobseekerSex: Option<int>,
    jobseekerPrefecture: Option<string>, jobseekerTel: Option<string>)

  /** A section of the card body: the company's details or the applicant's. */
  datatype Section =
    | Company(name: string, zip: string, address: string, tel: string)
    | Applicant(name: string, birthdate: string, sex: string, seekerPrefecture: Option<string>, seekerTel: Option<string>)

  /** The header colour: blue for template 1, orange for every other template. */
  function HeaderBgClass(templateId: int): (r: string)
    ensures r == "bg-blue" <==> templateId == 1
    ensures r == "bg-blue" || r == "bg-orange"
  {
    if templateId == 1 then "bg-blue" else "bg-orange"
  }

  function FormatSex(sex: int): (r: string)
  {
    if sex == 1 then "男性" else if sex == 2 then "女性" else "その他"
  }

  /** `formatSex(jobseekerSex || 0)`: a missing sex is formatted as 0. */
  function SexShown(sex: Option<int>): string
  {
    FormatSex(if sex.Some? then sex.value else 0)
  }

  /** 1 and 2 have their own labels, every other code (a missing one included) shares the third. */
  lemma SexLabels(sex: Option<int>)
    ensures SexShown(sex) == "男性" <==> sex == Some(1)
    ensures SexShown(sex) == "女性" <==> sex == Some(2)
    ensures SexShown(sex) == "その他" <==> sex != Some(1) && sex != Some(2)
    ensures sex.None? ==> SexShown(sex) == SexShown(Some(0))
  {
  }

  /** A JavaScript string is truthy when present and not empty. */
  predicate Truthy(s: Option<string>)
  {
    s.Some? && s.value != ""
  }

  function CompanySection(c: Card): Section
  {
    Company(c.companyName, c.zip, c.prefecture + c.city, c.tel)
  }

  /** The applicant's section; `formatBirthdate` is the date formatter applied to `jobseekerBirthdate || ''`. */
  function ApplicantSection(c: Card, formatBirthdate: string -> string): Section
  {
    Applicant(c.jobseekerName.GetOr(""), formatBirthdate(c.jobseekerBirthdate.GetOr("")),
              SexShown(c.jobseekerSex), c.jobseekerPrefecture, c.jobseekerTel)
  }

  /** The sections of the card body, in the order they appear, for the signed-in role. */
  function Sections(c: Card, userRole: Option<string>, formatBirthdate: string -> string): seq<Section>
  {
    if userRole == Some("admin") then
      if Truthy(c.jobseekerName) then [CompanySection(c), ApplicantSection(c, formatBirthdate)] else []
    else if userRole == Some("JobSeeker") then [CompanySection(c)]
    else if userRole == Some("Employer") && Truthy(c.jobseekerName) then [ApplicantSection(c, formatBirthdate)]
    else []
  }

  predicate ShowsCompany(s: seq<Section>)
  {
    exists i | 0 <= i < |s| :: s[i].Company?
  }

  predicate ShowsApplicant(s: seq<Section>)
  {
    exists i | 0 <= i < |s| :: s[i].Applicant?
  }

  /**
    Who sees what: the company section exactly for a job seeker and for an admin
    looking at a named applicant; the applicant section exactly for an admin or an
    employer when the applicant has a name. Each section appears at most once.
  */
  lemma SectionsByRole(c: Card, userRole: Option<string>, formatBirthdate: string -> string)
    ensures var s := Sections(c, userRole, formatBirthdate);
      (ShowsCompany(s) <==> userRole == Some("JobSeeker") || (userRole == Some("admin") && Truthy(c.jobseekerName)))
      && (ShowsApplicant(s) <==> (userRole == Some("admin") || userRole == Some("Employer")) && Truthy(c.jobseekerName))
      && |s| <= 2
  {
    var s := Sections(c, userRole, formatBirthdate);
    if userRole == Some("admin") && Truthy(c.jobseekerName) {
      assert s[0].Company? && s[1].Applicant?;
    } else if userRole == Some("JobSeeker") {
      assert s[0].Company?;
    } else if userRole == Some("Employer") && Truthy(c.jobseekerName) {
      assert s[0].Applicant?;
    }
  }

  /** The sections show the card's own details: the address is the prefecture followed by the city, the sex its label. */
  lemma SectionContents(c: Card, userRole: Option<string>, formatBirthdate: string -> string)
    ensures var s := Sections(c, userRole, formatBirthdate);
      forall i | 0 <= i < |s| ::
        (s[i].Company? ==> s[i] == Company(c.companyName, c.zip, c.prefecture + c.city, c.tel))
        && (s[i].Applicant? ==> s[i].name == c.jobseekerName.value && s[i].sex == SexShown(c.jobseekerSex)
                                && s[i].birthdate == formatBirthdate(c.jobseekerBirthdate.GetOr("")))
  {
  }
}
