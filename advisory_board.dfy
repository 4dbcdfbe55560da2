/**
 * The advisory-board server of `src/index.ts`: the `ADVISORS` registry of six
 * personas, `generateResponse` (a per-advisor template chosen by a key derived
 * from the advisor's display name, with a generic fallback) and the bodies of
 * the three tools `hold_board_meeting`, `get_advisor_info` and `list_advisors`.
 *
 * The registry and the response table are module constants in the server;
 * here they travel together as a `Board` value that every operation takes,
 * so that the properties of the operations are proved once for any board
 * meeting `Valid`, and `Valid(Shipped)` is proved for the board the server
 * is built with. Every tool body is a pure function of its validated
 * arguments; the render date of the meeting, which the server reads from
 * the clock, is a parameter.
 */
module AdvisoryBoard {
  import opened Text
  import opened Table

  // ---------------------------------------------------------------------------
  // Data
  // ---------------------------------------------------------------------------

  /** One persona record of `ADVISORS`. */
  datatype Advisor = Advisor(name: string, role: string, style: string, expertise: string)

  /**
   * A response template literal with at most one interpolation: fixed text,
   * or the topic in double quotes between two fixed texts.
   */
  datatype Template = Fixed(text: string) | QuotesTopic(before: string, after: string)

  /** The template literal evaluated for a topic. */
  function Render(t: Template, topic: string): string
  {
    match t
    case Fixed(text) => text
    case QuotesTopic(before, after) => before + Quoted(topic) + after
  }

  /** `ADVISORS` (the registry) and the `responses` object of `generateResponse`. */
  datatype Board = Board(registry: seq<(string, Advisor)>, responses: seq<(string, Template)>)

  /** The values the argument schemas accept for an advisor (`z.enum([...])`). */
  const AdvisorEnum: seq<string> :=
    ["tim_cook", "warren_buffett", "maya_angelou", "jamie_dimon", "charlie_munger", "art_gensler"]

  /** The record declared under `tim_cook`. */
  const TimCook: Advisor :=
    Advisor(
      "Tim Cook",
      "Strategic Leadership Advisor",
      "Measured, thoughtful, focuses on " +
      "long-term value and operational " +
      "excellence",
      "Strategic planning, operational " +
      "efficiency, brand building")

  /** The record declared under `warren_buffett`. */
  const WarrenBuffett: Advisor :=
    Advisor(
      "Warren Buffett",
      "Investment & Business Philosophy Advisor",
      "Folksy wisdom, asks probing questions " +
      "about business fundamentals",
      "Value investing, business analysis, " +
      "capital allocation")

  /** The record declared under `maya_angelou`. */
  const MayaAngelou: Advisor :=
    Advisor(
      "Maya Angelou",
      "Purpose & Human Leadership Advisor",
      "Warm, wise, focuses on human impact and " +
      "authentic leadership",
      "Leadership authenticity, inclusive " +
      "culture, communication")

  /** The record declared under `jamie_dimon`. */
  const JamieDimon: Advisor :=
    Advisor(
      "Jamie Dimon",
      "Risk Management & Crisis Leadership Advisor",
      "Direct, no-nonsense, stress-tests " +
      "everything for worst-case scenarios",
      "Risk management, crisis navigation, " +
      "financial strategy")

  /** The record declared under `charlie_munger`. */
  const CharlieMunger: Advisor :=
    Advisor(
      "Charlie Munger",
      "Mental Models & Rational Thinking Advisor",
      "Intellectually rigorous, uses inversion " +
      "thinking and multiple disciplines",
      "Decision-making frameworks, avoiding " +
      "biases, systematic thinking")

  /** The record declared under `art_gensler`. */
  const ArtGensler: Advisor :=
    Advisor(
      "Art Gensler",
      "Innovation & Design Thinking Advisor",
      "Creative, optimistic, reframes problems " +
      "as design challenges",
      "Human-centered design, innovation, " +
      "sustainable planning")

  /** `ADVISORS`, in declaration order. */
  const Advisors: seq<(string, Advisor)> := [
    ("tim_cook", TimCook),
    ("warren_buffett", WarrenBuffett),
    ("maya_angelou", MayaAngelou),
    ("jamie_dimon", JamieDimon),
    ("charlie_munger", CharlieMunger),
    ("art_gensler", ArtGensler)
  ]

  /** The response template declared under `tim_cook`. */
  const TimCookSays: Template :=
    QuotesTopic(
      "Looking at ",
      ", I'd focus on three key areas: First, " +
      "how does this align with our core " +
      "mission and values? Second, what are " +
      "the long-term operational implications? " +
      "Third, will this delight our customers " +
      "and create lasting value? \n\nMy advice: " +
      "Take a systematic approach - analyze " +
      "the customer impact, build operational " +
      "capabilities gradually, and measure " +
      "success with clear KPIs. Don't rush; " +
      "execute with excellence.\n\nKey " +
      "questions: What would our customers say " +
      "about this decision? Do we have the " +
      "operational foundation to succeed?")

  /** The response template declared under `warren_buffett`. */
  const WarrenBuffettSays: Template :=
    Fixed(
      "This sounds like a classic capital " +
      "allocation decision. Before moving " +
      "forward, I'd want to understand the " +
      "economics deeply - what's the " +
      "competitive advantage here, and are we " +
      "buying at a reasonable price?\n\nMy " +
      "advice: Apply the 10-year test - would " +
      "you be comfortable with this decision " +
      "if you had to live with it for a " +
      "decade? Focus on businesses with strong " +
      "moats and predictable cash flows. If " +
      "you can't understand it simply, don't " +
      "do it.\n\nKey questions: What could " +
      "permanently damage this business? Are " +
      "we paying a fair price for future cash " +
      "flows?")

  /** The response template declared under `maya_angelou`. */
  const MayaAngelouSays: Template :=
    QuotesTopic(
      "Every business decision is ultimately " +
      "about people. When I think about ",
      ", I ask: How will this help your team " +
      "grow? How will it serve your community? " +
      "What story does this tell about who you " +
      "are?\n\nMy advice: Lead with courage and " +
      "authenticity. Make sure this decision " +
      "lifts others up, not just generates " +
      "profit. Your people will remember how " +
      "this made them feel long after the " +
      "numbers are forgotten.\n\nKey questions: " +
      "What story are you telling with this " +
      "choice? How can this decision help " +
      "others flourish?")

  /** The response template declared under `jamie_dimon`. */
  const JamieDimonSays: Template :=
    Fixed(
      "Let me stress-test this for you. What " +
      "happens if everything goes wrong? Do " +
      "you have the balance sheet strength to " +
      "survive a downturn? Have you considered " +
      "all the regulatory and competitive " +
      "risks?\n\nMy advice: Build multiple " +
      "scenarios - best case, worst case, and " +
      "most likely. Make sure you can survive " +
      "the worst case. Have contingency plans " +
      "ready. Don't bet the company on any " +
      "single decision.\n\nKey questions: What " +
      "keeps you up at night about this? How " +
      "would you survive if your assumptions " +
      "are wrong?")

  /** The response template declared under `charlie_munger`. */
  const CharlieMungerSays: Template :=
    Fixed(
      "Let's invert this problem - what would " +
      "cause this to fail completely? I'd " +
      "apply multiple mental models: economic, " +
      "psychological, competitive. Most " +
      "failures come from cognitive biases and " +
      "poor incentive structures.\n\nMy advice: " +
      "Create a checklist of potential failure " +
      "modes. Ask yourself how you might be " +
      "fooling yourself. Look at this through " +
      "the lens of history, psychology, and " +
      "economics. The biggest risk is usually " +
      "what you're not thinking about.\n\nKey " +
      "questions: How might you be deceiving " +
      "yourself? What disciplines outside " +
      "business inform this decision?")

  /** The response template declared under `art_gensler`. */
  const ArtGenslerSays: Template :=
    QuotesTopic(
      "I'd reframe ",
      " as a design challenge. Who are we " +
      "really serving here? What would the " +
      "most innovative, human-centered " +
      "solution look like? How might we " +
      "prototype and test before committing " +
      "fully?\n\nMy advice: Start with deep user " +
      "research. Create multiple solution " +
      "concepts. Test and iterate quickly. The " +
      "best solutions often come from " +
      "understanding people's unarticulated " +
      "needs.\n\nKey questions: What would users " +
      "love about this? How might we design " +
      "this to create lasting positive impact?")

  /** The `responses` object of `generateResponse`, in declaration order. */
  const Responses: seq<(string, Template)> := [
    ("tim_cook", TimCookSays),
    ("warren_buffett", WarrenBuffettSays),
    ("maya_angelou", MayaAngelouSays),
    ("jamie_dimon", JamieDimonSays),
    ("charlie_munger", CharlieMungerSays),
    ("art_gensler", ArtGenslerSays)
  ]
  /** The paragraph `generateResponse` returns when the looked-up response is falsy. */
  const Fallback: Template := QuotesTopic(
    "Based on my experience, I would " +
    "approach ",
    " by considering the key stakeholders " +
    "and long-term implications. My advice " +
    "is to gather more data and consider " +
    "multiple perspectives before deciding.")
  /** The board the server is built with. */
  const Shipped: Board := Board(Advisors, Responses)

  // ---------------------------------------------------------------------------
  // The key generateResponse looks up
  // ---------------------------------------------------------------------------

  /** `name.toLowerCase().replace(' ', '_')`. */
  function ResponseKey(name: string): string
  {
    ReplaceFirst(Lower(name), ' ', '_')
  }

  /**
   * The derived key is the lower-cased name with only its first space turned
   * into `_`: every later space is kept.
   */
  lemma ResponseKeyShape(name: string)
    ensures |ResponseKey(name)| == |name|
    ensures ' ' in name ==> ResponseKey(name)[FirstIndex(name, ' ')] == '_'
    ensures forall i :: 0 <= i < |name| && i != FirstIndex(name, ' ') ==>
      ResponseKey(name)[i] == LowerChar(name[i])
    ensures forall i :: 0 <= i < |name| && name[i] == ' ' && i != FirstIndex(name, ' ') ==>
      ResponseKey(name)[i] == ' '
  {
    LowerKeepsFirstSpace(name);
  }

  /** A two-word name whose first word has no space derives `first_last`, lower-cased. */
  lemma {:induction false} ResponseKeyOfTwoWords(name: string, first: string, last: string, key: string)
    requires name == first + " " + last && ' ' !in first
    requires key == Lower(first) + "_" + Lower(last)
    ensures ResponseKey(name) == key
  {
    var k := |first|;
    assert name[k] == ' ' && name[..k] == first;
    assert FirstIndex(name, ' ') == k;
    LowerKeepsFirstSpace(name);
    LowerOfConcat(first + " ", last);
    LowerOfConcat(first, " ");
    assert Lower(" ") == " ";
    var l := Lower(name);
    assert l[..k] == Lower(first) && l[k + 1..] == Lower(last);
  }

  // ---------------------------------------------------------------------------
  // What the operations rely on of the data
  // ---------------------------------------------------------------------------

  /**
   * The registry declares each key once; every display name derives its own
   * key; no two display names share an initial.
   */
  predicate RegistryValid(registry: seq<(string, Advisor)>)
  {
    && DistinctKeys(registry)
    && (forall i {:trigger ResponseKey(registry[i].1.name)} :: 0 <= i < |registry| ==>
         ResponseKey(registry[i].1.name) == registry[i].0)
    && (forall i :: 0 <= i < |registry| ==> registry[i].1.name != [])
    && (forall i, j :: 0 <= i < j < |registry| ==> registry[i].1.name[0] != registry[j].1.name[0])
  }

  /**
   * The registry is valid, the responses are keyed exactly like it, and no
   * fixed response is empty (falsy).
   */
  predicate Valid(b: Board)
  {
    && RegistryValid(b.registry)
    && Keys(b.responses) == Keys(b.registry)
    && (forall i :: 0 <= i < |b.responses| && b.responses[i].1.Fixed? ==> b.responses[i].1.text != [])
  }

  /** The schema lists each advisor once. */
  lemma EnumHasNoDuplicates()
    ensures NoDuplicates(AdvisorEnum)
  {
    var initials := "twmjca";
    forall i | 0 <= i < |AdvisorEnum| ensures AdvisorEnum[i] != [] && AdvisorEnum[i][0] == initials[i] {
    }
  }

  /**
   * The schema's enumeration is exactly the keys of the registry, in
   * declaration order: a key the schema accepts is always found, and every
   * declared advisor can be requested.
   */
  lemma SchemaMatchesRegistry()
    ensures Keys(Advisors) == AdvisorEnum
  {
    var ks := Keys(Advisors);
    forall i | 0 <= i < |AdvisorEnum| ensures ks[i] == AdvisorEnum[i] {
    }
  }

  /** The response templates are declared under the same keys, in the same order. */
  lemma SchemaMatchesResponses()
    ensures Keys(Responses) == AdvisorEnum
  {
    var ks := Keys(Responses);
    forall i | 0 <= i < |AdvisorEnum| ensures ks[i] == AdvisorEnum[i] {
    }
  }

  /** Every display name of the registry derives its own key. */
  lemma NamesDeriveKeys()
    ensures forall i :: 0 <= i < |Advisors| ==> ResponseKey(Advisors[i].1.name) == Advisors[i].0
  {
    forall i | 0 <= i < |Advisors| ensures ResponseKey(Advisors[i].1.name) == Advisors[i].0 {
      if i == 0 { TimCookDerivesKey(); }
      else if i == 1 { WarrenBuffettDerivesKey(); }
      else if i == 2 { MayaAngelouDerivesKey(); }
      else if i == 3 { JamieDimonDerivesKey(); }
      else if i == 4 { CharlieMungerDerivesKey(); }
      else { ArtGenslerDerivesKey(); }
    }
  }

  /** The display name declared under entry 0 derives that entry's key. */
  lemma TimCookDerivesKey()
    ensures ResponseKey(Advisors[0].1.name) == Advisors[0].0
  {
    ResponseKeyOfTwoWords(TimCook.name, "Tim", "Cook", "tim_cook");
  }

  /** The display name declared under entry 1 derives that entry's key. */
  lemma WarrenBuffettDerivesKey()
    ensures ResponseKey(Advisors[1].1.name) == Advisors[1].0
  {
    ResponseKeyOfTwoWords(WarrenBuffett.name, "Warren", "Buffett", "warren_buffett");
  }

  /** The display name declared under entry 2 derives that entry's key. */
  lemma MayaAngelouDerivesKey()
    ensures ResponseKey(Advisors[2].1.name) == Advisors[2].0
  {
    ResponseKeyOfTwoWords(MayaAngelou.name, "Maya", "Angelou", "maya_angelou");
  }

  /** The display name declared under entry 3 derives that entry's key. */
  lemma JamieDimonDerivesKey()
    ensures ResponseKey(Advisors[3].1.name) == Advisors[3].0
  {
    ResponseKeyOfTwoWords(JamieDimon.name, "Jamie", "Dimon", "jamie_dimon");
  }

  /** The display name declared under entry 4 derives that entry's key. */
  lemma CharlieMungerDerivesKey()
    ensures ResponseKey(Advisors[4].1.name) == Advisors[4].0
  {
    ResponseKeyOfTwoWords(CharlieMunger.name, "Charlie", "Munger", "charlie_munger");
  }

  /** The display name declared under entry 5 derives that entry's key. */
  lemma ArtGenslerDerivesKey()
    ensures ResponseKey(Advisors[5].1.name) == Advisors[5].0
  {
    ResponseKeyOfTwoWords(ArtGensler.name, "Art", "Gensler", "art_gensler");
  }

  /** The display names of the registry start with six different letters. */
  lemma NamesHaveDistinctInitials()
    ensures forall i :: 0 <= i < |Advisors| ==> Advisors[i].1.name != []
    ensures forall i, j :: 0 <= i < j < |Advisors| ==> Advisors[i].1.name[0] != Advisors[j].1.name[0]
  {
    var initials := "TWMJCA";
    assert TimCook.name[0] == initials[0];
    assert WarrenBuffett.name[0] == initials[1];
    assert MayaAngelou.name[0] == initials[2];
    assert JamieDimon.name[0] == initials[3];
    assert CharlieMunger.name[0] == initials[4];
    assert ArtGensler.name[0] == initials[5];
    assert forall i :: 0 <= i < |Advisors| ==> Advisors[i].1.name[0] == initials[i];
  }

  /** No fixed response of the server is empty. */
  lemma FixedResponsesNonEmpty()
    ensures forall i :: 0 <= i < |Responses| && Responses[i].1.Fixed? ==> Responses[i].1.text != []
  {
    assert |WarrenBuffettSays.text| > 0;
    assert |JamieDimonSays.text| > 0;
    assert |CharlieMungerSays.text| > 0;
  }

  /** The board the server is built with is valid. */
  lemma ShippedIsValid()
    ensures Valid(Shipped)
  {
    SchemaMatchesRegistry();
    SchemaMatchesResponses();
    EnumHasNoDuplicates();
    NamesDeriveKeys();
    NamesHaveDistinctInitials();
    FixedResponsesNonEmpty();
  }

  /**
   * The templates of tim_cook (entry 0), maya_angelou (entry 2) and
   * art_gensler (entry 5) quote the topic; those of warren_buffett,
   * jamie_dimon and charlie_munger are fixed text.
   */
  lemma ResponsesQuotingTopic()
    ensures Responses[0].1.QuotesTopic? && Responses[2].1.QuotesTopic? && Responses[5].1.QuotesTopic?
    ensures Responses[1].1.Fixed? && Responses[3].1.Fixed? && Responses[4].1.Fixed?
  {
  }

  /** `ADVISORS[key]` for a declared key: the record declared under `key`. */
  function AdvisorOf(b: Board, key: string): (a: Advisor)
    requires RegistryValid(b.registry) && key in Keys(b.registry)
    ensures a == b.registry[Position(b.registry, key)].1
  {
    FindAt(b.registry, key);
    Find(b.registry, key).value
  }

  // ---------------------------------------------------------------------------
  // generateResponse
  // ---------------------------------------------------------------------------

  /** `generateResponse(advisor, topic, background)`; `background` is never read. */
  function GenerateResponse(b: Board, advisor: Advisor, topic: string, background: string): string
  {
    // `responses[key] || fallback`: a missing key and an empty text are both falsy
    var chosen := match Find(b.responses, ResponseKey(advisor.name))
      case Some(t) => Render(t, topic)
      case None => "";
    if chosen != "" then chosen else Render(Fallback, topic)
  }

  /**
   * The response is the template declared under the derived key, rendered
   * with the topic; when no template is declared under it, it is the
   * fallback paragraph, which quotes the topic.
   */
  lemma GenerateResponseSelects(b: Board, advisor: Advisor, topic: string, background: string)
    requires Valid(b)
    ensures ResponseKey(advisor.name) in Keys(b.responses) ==>
      GenerateResponse(b, advisor, topic, background) ==
      Render(b.responses[Position(b.responses, ResponseKey(advisor.name))].1, topic)
    ensures ResponseKey(advisor.name) !in Keys(b.responses) ==>
      GenerateResponse(b, advisor, topic, background) == Render(Fallback, topic)
    ensures IsInfix(Quoted(topic), Render(Fallback, topic))
  {
    var key := ResponseKey(advisor.name);
    if key in Keys(b.responses) {
      FindAt(b.responses, key);
    }
    InfixOfConcat(Fallback.before, Quoted(topic), Fallback.after);
  }

  /**
   * A declared advisor's name derives its own key, which is found among the
   * responses, so it gets the template declared under that key and never
   * the fallback paragraph.
   */
  lemma RegisteredAdvisorGetsOwnTemplate(b: Board, key: string, topic: string, background: string)
    requires Valid(b) && key in Keys(b.registry)
    ensures ResponseKey(AdvisorOf(b, key).name) == key
    ensures GenerateResponse(b, AdvisorOf(b, key), topic, background) ==
      Render(b.responses[Position(b.registry, key)].1, topic)
  {
    var i := Position(b.registry, key);
    assert ResponseKey(b.registry[i].1.name) == key;
    assert Keys(b.responses)[i] == key;
    PositionOfEntry(b.responses, i);
    GenerateResponseSelects(b, AdvisorOf(b, key), topic, background);
  }

  /** The output never depends on `background`. */
  lemma GenerateResponseIgnoresBackground(b: Board, advisor: Advisor, topic: string, b1: string, b2: string)
    ensures GenerateResponse(b, advisor, topic, b1) == GenerateResponse(b, advisor, topic, b2)
  {
  }

  /**
   * A fixed template is the same for every topic; a template that quotes the
   * topic contains it verbatim, in quotes, and renders different topics
   * differently.
   */
  lemma RenderTopicDependence(t: Template, t1: string, t2: string)
    ensures t.Fixed? ==> Render(t, t1) == Render(t, t2)
    ensures t.QuotesTopic? ==> IsInfix(Quoted(t1), Render(t, t1))
    ensures t.QuotesTopic? ==> (Render(t, t1) == Render(t, t2) <==> t1 == t2)
  {
    if t.QuotesTopic? {
      var b, a := t.before, t.after;
      InfixOfConcat(b, Quoted(t1), a);
      if Render(t, t1) == Render(t, t2) {
        assert |t1| == |t2|;
        SliceOfMiddle(b, Quoted(t1), a, 1, |t1| + 1);
        SliceOfMiddle(b, Quoted(t2), a, 1, |t2| + 1);
        assert Quoted(t1)[1..|t1| + 1] == t1;
        assert Quoted(t2)[1..|t2| + 1] == t2;
      }
    }
  }

  // ---------------------------------------------------------------------------
  // hold_board_meeting
  // ---------------------------------------------------------------------------

  /** The heading of an advisor's section: `### name - role` and a blank line. */
  function Heading(a: Advisor): string
  {
    "### " + a.name + " - " + a.role + "\n\n"
  }

  /** One advisor's section: the heading, the response, a blank line and a rule. */
  function Section(b: Board, key: string, topic: string, background: string): string
    requires RegistryValid(b.registry) && key in Keys(b.registry)
  {
    var a := AdvisorOf(b, key);
    Heading(a) + GenerateResponse(b, a, topic, background) + "\n\n---"
  }

  /** `advisors.map(...)`: one section per requested key, in the order given. */
  function Sections(b: Board, topic: string, background: string, advisors: seq<string>): seq<string>
    requires RegistryValid(b.registry)
    requires forall k :: k in advisors ==> k in Keys(b.registry)
  {
    seq(|advisors|, i requires 0 <= i < |advisors| => Section(b, advisors[i], topic, background))
  }

  /** A labelled line of a card or header: `**title:** value` and a line break. */
  function Field(title: string, value: string): string
  {
    "**" + title + ":** " + value + "\n"
  }

  /** The title line that opens the meeting. */
  const MeetingTitle: string := "\n# VIRTUAL BOARD MEETING\n"

  /** The rule and heading between the header fields and the sections. */
  const ResponsesHeading: string := "\n---\n\n## ADVISOR RESPONSES:\n\n"

  /** Everything before the sections: title, topic, render date, background, heading. */
  function MeetingHeader(topic: string, date: string, background: string): string
  {
    MeetingTitle + Field("Topic", topic) + Field("Date", date) + "\n" + Field("Background", background) +
    ResponsesHeading
  }

  const SummaryLead: string :=
    "\n\n## SUMMARY\nYour virtual advisory board has provided " +
    "diverse perspectives on "

  const SummaryTail: string :=
    ". Each advisor has offered specific advice " +
    "based on their expertise and decision-making style. " +
    "Consider the common themes and conflicting viewpoints " +
    "as you make your decision.\n"

  /** Everything after the sections: the summary, which quotes the topic again. */
  function MeetingSummary(topic: string): string
  {
    SummaryLead + Quoted(topic) + SummaryTail
  }

  /** The meeting text around the rendered sections, joined by line breaks. */
  function Meeting(topic: string, date: string, background: string, sections: seq<string>): string
  {
    MeetingHeader(topic, date, background) + Join(sections, "\n") + MeetingSummary(topic)
  }

  /** The `hold_board_meeting` tool body; `date` stands for the locale-formatted render date. */
  function HoldBoardMeeting(b: Board, topic: string, background: string, date: string, advisors: seq<string>): string
    requires RegistryValid(b.registry)
    requires forall k :: k in advisors ==> k in Keys(b.registry)
  {
    Meeting(topic, date, background, Sections(b, topic, background, advisors))
  }

  /**
   * The header echoes the topic, the render date and the background
   * verbatim, each on its own labelled line, and the summary quotes the topic.
   */
  lemma MeetingEchoesArguments(topic: string, date: string, background: string)
    ensures IsInfix(Field("Topic", topic), MeetingHeader(topic, date, background))
    ensures IsInfix(Field("Date", date), MeetingHeader(topic, date, background))
    ensures IsInfix(Field("Background", background), MeetingHeader(topic, date, background))
    ensures IsInfix(Quoted(topic), MeetingSummary(topic))
  {
    var t, d, g := Field("Topic", topic), Field("Date", date), Field("Background", background);
    InfixOfSuffix(MeetingTitle, t);
    InfixOfExtension(t, MeetingTitle + t, d);
    InfixOfExtension(t, MeetingTitle + t + d, "\n");
    InfixOfExtension(t, MeetingTitle + t + d + "\n", g);
    InfixOfExtension(t, MeetingTitle + t + d + "\n" + g, ResponsesHeading);
    InfixOfSuffix(MeetingTitle + t, d);
    InfixOfExtension(d, MeetingTitle + t + d, "\n");
    InfixOfExtension(d, MeetingTitle + t + d + "\n", g);
    InfixOfExtension(d, MeetingTitle + t + d + "\n" + g, ResponsesHeading);
    InfixOfConcat(MeetingTitle + t + d + "\n", g, ResponsesHeading);
    InfixOfConcat(SummaryLead, Quoted(topic), SummaryTail);
  }

  /** The meeting opens with the header and closes with the summary. */
  lemma MeetingFrame(topic: string, date: string, background: string, sections: seq<string>)
    ensures MeetingHeader(topic, date, background) <= Meeting(topic, date, background, sections)
    ensures EndsWith(Meeting(topic, date, background, sections), MeetingSummary(topic))
  {
    OuterParts(MeetingHeader(topic, date, background), Join(sections, "\n"), MeetingSummary(topic));
  }

  /** Section `i` sits unchanged at its offset after the header. */
  lemma MeetingSectionAt(topic: string, date: string, background: string, sections: seq<string>, i: nat)
    requires i < |sections|
    ensures PartAt(Meeting(topic, date, background, sections),
      |MeetingHeader(topic, date, background)| + Offset(sections, "\n", i), sections[i])
  {
    JoinedPartInContext(MeetingHeader(topic, date, background), sections, "\n", MeetingSummary(topic), i);
  }

  /**
   * A single line break follows section `i` when another section comes
   * after it, and section `i + 1` starts right after that line break.
   */
  lemma MeetingSeparatorAt(topic: string, date: string, background: string, sections: seq<string>, i: nat)
    requires i + 1 < |sections|
    ensures PartAt(Meeting(topic, date, background, sections),
      |MeetingHeader(topic, date, background)| + Offset(sections, "\n", i) + |sections[i]|, "\n")
    ensures Offset(sections, "\n", i + 1) == Offset(sections, "\n", i) + |sections[i]| + 1
  {
    JoinedSeparatorInContext(MeetingHeader(topic, date, background), sections, "\n", MeetingSummary(topic), i);
  }

  /**
   * The section of a requested advisor is headed with the name and role
   * declared under its key and carries the template declared under that key.
   */
  lemma SectionCarriesOwnTemplate(b: Board, key: string, topic: string, background: string)
    requires Valid(b) && key in Keys(b.registry)
    ensures Heading(b.registry[Position(b.registry, key)].1) <= Section(b, key, topic, background)
    ensures IsInfix(Render(b.responses[Position(b.registry, key)].1, topic), Section(b, key, topic, background))
  {
    var a := AdvisorOf(b, key);
    RegisteredAdvisorGetsOwnTemplate(b, key, topic, background);
    OuterParts(Heading(a), GenerateResponse(b, a, topic, background), "\n\n---");
    InfixOfConcat(Heading(a), GenerateResponse(b, a, topic, background), "\n\n---");
  }

  /**
   * There is one section per requested key, in the order given and with
   * repeated keys rendered again: the `i`-th is headed with the name and
   * role declared under the `i`-th key and carries the template declared
   * under that key.
   */
  lemma SectionOfAdvisor(b: Board, topic: string, background: string, advisors: seq<string>, i: nat)
    requires Valid(b)
    requires forall k :: k in advisors ==> k in Keys(b.registry)
    requires i < |advisors|
    ensures |Sections(b, topic, background, advisors)| == |advisors|
    ensures Heading(b.registry[Position(b.registry, advisors[i])].1) <= Sections(b, topic, background, advisors)[i]
    ensures IsInfix(Render(b.responses[Position(b.registry, advisors[i])].1, topic),
      Sections(b, topic, background, advisors)[i])
  {
    SectionCarriesOwnTemplate(b, advisors[i], topic, background);
  }

  // ---------------------------------------------------------------------------
  // get_advisor_info
  // ---------------------------------------------------------------------------

  /** The first line of a card: `**name** - role`, then a blank line. */
  function CardTitle(a: Advisor): string
  {
    "**" + a.name + "** - " + a.role + "\n\n"
  }

  /** The `get_advisor_info` tool body. */
  function AdvisorInfo(b: Board, key: string): string
    requires RegistryValid(b.registry) && key in Keys(b.registry)
  {
    var a := AdvisorOf(b, key);
    CardTitle(a) + Field("Communication Style", a.style) + ("**Key Expertise:** " + a.expertise)
  }

  /**
   * The card shows the record declared under the key: name and role first,
   * then the style and last the expertise, each after its label; the card of
   * one key is never the card of another.
   */
  lemma AdvisorInfoShowsRecord(b: Board, key: string, other: string)
    requires RegistryValid(b.registry) && key in Keys(b.registry) && other in Keys(b.registry)
    ensures CardTitle(b.registry[Position(b.registry, key)].1) <= AdvisorInfo(b, key)
    ensures IsInfix(Field("Communication Style", b.registry[Position(b.registry, key)].1.style), AdvisorInfo(b, key))
    ensures EndsWith(AdvisorInfo(b, key), "**Key Expertise:** " + b.registry[Position(b.registry, key)].1.expertise)
    ensures AdvisorInfo(b, key) == AdvisorInfo(b, other) ==> key == other
  {
    var a, o := AdvisorOf(b, key), AdvisorOf(b, other);
    InfixOfConcat(CardTitle(a), Field("Communication Style", a.style), "**Key Expertise:** " + a.expertise);
    assert a.name != [] && CardTitle(a)[2] == a.name[0];
    assert o.name != [] && CardTitle(o)[2] == o.name[0];
  }

  // ---------------------------------------------------------------------------
  // list_advisors
  // ---------------------------------------------------------------------------

  /** One line of the roster: `**name** (key): expertise`. */
  function ListItem(key: string, a: Advisor): string
  {
    "**" + a.name + "** " + Parenthesized(key) + ": " + a.expertise
  }

  /** `Object.entries(ADVISORS).map(...)`: one line per declared entry, in declaration order. */
  function ListItems(registry: seq<(string, Advisor)>): seq<string>
  {
    seq(|registry|, i requires 0 <= i < |registry| => ListItem(registry[i].0, registry[i].1))
  }

  /** The `list_advisors` tool body. */
  function ListAdvisors(b: Board): string
  {
    Join(ListItems(b.registry), "\n\n")
  }

  /**
   * The roster has one line per declared advisor, in declaration order, each
   * showing its key in parentheses; the lines sit unchanged at their offsets,
   * a blank line apart.
   */
  lemma ListAdvisorsCoversRegistry(b: Board)
    ensures |ListItems(b.registry)| == |b.registry|
    ensures forall i :: 0 <= i < |b.registry| ==>
      IsInfix(Parenthesized(b.registry[i].0), ListItems(b.registry)[i])
    ensures forall i :: 0 <= i < |b.registry| ==>
      var items := ListItems(b.registry);
      var p := Offset(items, "\n\n", i);
      p + |items[i]| <= |ListAdvisors(b)| && ListAdvisors(b)[p..p + |items[i]|] == items[i]
  {
    var items := ListItems(b.registry);
    forall i | 0 <= i < |b.registry|
      ensures IsInfix(Parenthesized(b.registry[i].0), items[i])
    {
      var key, a := b.registry[i].0, b.registry[i].1;
      var pre := "**" + a.name + "** ";
      InfixOfConcat(pre, Parenthesized(key), ": ");
      InfixOfExtension(Parenthesized(key), pre + Parenthesized(key) + ": ", a.expertise);
    }
    forall i | 0 <= i < |b.registry|
      ensures var p := Offset(items, "\n\n", i);
        p + |items[i]| <= |Join(items, "\n\n")| && Join(items, "\n\n")[p..p + |items[i]|] == items[i]
    {
      JoinPartAt(items, "\n\n", i);
    }
  }
}
