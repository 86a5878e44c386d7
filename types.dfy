/** The contest vocabulary and the shape of a registration as the form and the API exchange it. */
module Types {
  import opened Wrappers

  /** The five contest values; each is represented by its own name as a string. */
  datatype Contest = NONE | SUPERMOM | CUTESTBABY | SENIORCITIZEN | GENERAL

  const AllContests: seq<Contest> := [NONE, SUPERMOM, CUTESTBABY, SENIORCITIZEN, GENERAL]

  /** The string value of an enum member. */
  function Key(c: Contest): string
  {
    match c
    case NONE => "NONE"
    case SUPERMOM => "SUPERMOM"
    case CUTESTBABY => "CUTESTBABY"
    case SENIORCITIZEN => "SENIORCITIZEN"
    case GENERAL => "GENERAL"
  }

  /** Reads an enum member back from its string value. */
  function ParseContest(s: string): (r: Option<Contest>)
    ensures r.Some? ==> Key(r.value) == s
    ensures r.None? ==> forall c :: Key(c) != s
  {
    if s == "NONE" then Some(NONE)
    else if s == "SUPERMOM" then Some(SUPERMOM)
    else if s == "CUTESTBABY" then Some(CUTESTBABY)
    else if s == "SENIORCITIZEN" then Some(SENIORCITIZEN)
    else if s == "GENERAL" then Some(GENERAL)
    else None
  }

  /** The enumeration has exactly five distinct values, each with its own string. */
  lemma {:induction false} ContestEnumeration()
    ensures |AllContests| == 5
    ensures forall c: Contest :: c in AllContests
    ensures forall i, j :: 0 <= i < j < |AllContests| ==> Key(AllContests[i]) != Key(AllContests[j])
  {
    forall c: Contest ensures c in AllContests {
      match c
      case NONE => assert AllContests[0] == c;
      case SUPERMOM => assert AllContests[1] == c;
      case CUTESTBABY => assert AllContests[2] == c;
      case SENIORCITIZEN => assert AllContests[3] == c;
      case GENERAL => assert AllContests[4] == c;
    }
    forall i, j | 0 <= i < j < |AllContests|
      ensures Key(AllContests[i]) != Key(AllContests[j])
    {
      ParseContestRoundTrip(AllContests[i]);
      ParseContestRoundTrip(AllContests[j]);
    }
  }

  lemma {:induction false} ParseContestRoundTrip(c: Contest)
    ensures ParseContest(Key(c)) == Some(c)
  {
  }

  /**
   * A registration as the form builds it and the register endpoint receives it:
   * name, WhatsApp number and contest are required, everything else may be absent.
   */
  datatype RegistrationData = RegistrationData(
    name: string,
    age: Option<int>,
    whatsapp: string,
    email: Option<string>,
    contest: Contest,
    message: Option<string>,
    numberOfChildren: Option<int>,
    photoUrl: Option<string>,
    videoUrl: Option<string>)

  /** The descriptive record each contest has in the constant table. */
  datatype ContestInfo = ContestInfo(
    id: Contest,
    title: string,
    description: string,
    shortDescription: string,
    whoCanJoin: string,
    rules: seq<string>,
    eligibility: string,
    judgingCriteria: string,
    contactWhatsApp: string,
    sampleImage: string)

  const ContactNumber := "+91-8120174075"
  const OpenRules: seq<string> := ["Be respectful to all participants", "Follow event guidelines"]
  const CarnivalDescription := "Join our Diwali Family Carnival for a day of fun, food, and festivities!"

  const GeneralRegistration: ContestInfo :=
    ContestInfo(NONE, "General Registration", CarnivalDescription, CarnivalDescription,
      "Everyone is welcome!", OpenRules, "All ages welcome", "N/A", ContactNumber,
      "https://images.unsplash.com/photo-1606092195730-5d7b9af1efc5?w=500&h=300&fit=crop")

  const SuperMomContest: ContestInfo :=
    ContestInfo(SUPERMOM, "Super Mom",
      "Celebrate the amazing mothers in our community! Showcase your talents, share your story, and compete for the title of Super Mom.",
      "Celebrate amazing mothers! Showcase talents and compete for the title of Super Mom.",
      "Mothers of age 21-60 year",
      ["Must be a mother of age 21 to 60 year.",
       "Submit a short video (max 2 minutes) showcasing your talents or sharing your story",
       "Include a photo of yourself if possible",
       "Be present at the event for final judging"],
      "Mothers of age 21-60 year",
      "Judging would be based on Quize Round, Digital Round of Facebook & Instagram views and Ramp Walk or Fashion Show on traditional and spritual theme.",
      ContactNumber, "/sm.png")

  const CutestBabyContest: ContestInfo :=
    ContestInfo(CUTESTBABY, "Cutest Baby of Indore",
      "Show off your little one's adorable smile! Our cutest baby contest is perfect for families with children under 12 years.",
      "Show off your little one's adorable smile! Perfect for babies under 12 years.",
      "Babies and toddlers under 12 years",
      ["Child must be under 12 years old",
       "Submit cute photo of your baby",
       "Include baby's name and age",
       "Parent/guardian must be present at the event"],
      "Children under 12 years",
      "Decoration and Creativity on the stage based on Traditional and spritual theme Engagement on Facebook and Instagram",
      ContactNumber, "/cb.jpg")

  const SeniorCitizenContest: ContestInfo :=
    ContestInfo(SENIORCITIZEN, "Damdar Dada & Dadi Ji",
      "Honor our wise and wonderful senior citizens! Share your life experiences, talents, or wisdom in this special contest.",
      "Honor our wise senior citizens! Share life experiences, talents, or wisdom.",
      "Senior citizens (60+ years)",
      ["Must be 60 years or older",
       "Share a story, talent, or life experience",
       "Submit a photo and optional short video",
       "Be present at the event for final presentation"],
      "Senior citizens aged 60 and above",
      "2 minutes stage performance on story telling Life experience, wisdom, talent, and community contribution and also a part of judging is based on facebook voting on parentsbuddy event page",
      ContactNumber, "/sc.jpg")

  const FreeFamilyCarnival: ContestInfo :=
    ContestInfo(GENERAL, "Free Family Carnival", CarnivalDescription, CarnivalDescription,
      "Everyone is welcome!", OpenRules, "All ages welcome", "N/A", ContactNumber, "/general.webp")

  /** The constant table: total over the enumeration, each entry filed under its own id. */
  function Contests(c: Contest): (info: ContestInfo)
    ensures info.id == c
    ensures |info.rules| > 0
    ensures info.contactWhatsApp == ContactNumber
  {
    match c
    case NONE => GeneralRegistration
    case SUPERMOM => SuperMomContest
    case CUTESTBABY => CutestBabyContest
    case SENIORCITIZEN => SeniorCitizenContest
    case GENERAL => FreeFamilyCarnival
  }

  /** `Object.values(CONTESTS)`: the entries in declaration order. */
  function ContestTable(): (t: seq<ContestInfo>)
    ensures |t| == |AllContests|
    ensures forall i :: 0 <= i < |t| ==> t[i].id == AllContests[i]
  {
    seq(|AllContests|, i requires 0 <= i < |AllContests| => Contests(AllContests[i]))
  }
}
