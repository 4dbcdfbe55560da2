/**
 * The stdio variant of the advisory-board server, `index.ts`: here the
 * `ADVISORS` table maps each key straight to one paragraph of advice,
 * `hold_board_meeting` renders one `**LABEL**: advice` block per requested
 * key under a fixed header and above a fixed footer, and `list_advisors`
 * returns a constant roster.
 *
 * As in the other server, the table travels as a parameter of the tool
 * bodies, so that their properties are proved for any table with distinct
 * keys, and the properties of the shipped table are proved once.
 */
module StdioBoard {
  import opened Text
  import opened Table

  // ---------------------------------------------------------------------------
  // Data
  // ---------------------------------------------------------------------------

  /** The values the argument schema accepts for an advisor (`z.enum([...])`). */
  const AdvisorEnum: seq<string> :=
    ["tim_cook", "warren_buffett", "maya_angelou", "jamie_dimon", "charlie_munger", "art_gensler"]

  /** The advice declared under `tim_cook`. */
  const TimCookAdvice: string :=
    "Tim Cook would focus on operational " +
    "excellence and long-term value. He'd " +
    "ask: 'Does this align with our core " +
    "mission? Will this delight customers 10 " +
    "years from now?' His advice: Take a " +
    "systematic approach, build operational " +
    "capabilities gradually, and measure " +
    "success with clear KPIs."

  /** The advice declared under `warren_buffett`. */
  const WarrenBuffettAdvice: string :=
    "Warren Buffett would treat this as a " +
    "capital allocation decision. He'd ask: " +
    "'Would you be comfortable with this for " +
    "10 years? What's the economic moat?' " +
    "His advice: Focus on businesses with " +
    "predictable cash flows and strong " +
    "competitive advantages. If you can't " +
    "understand it simply, don't do it."

  /** The advice declared under `maya_angelou`. */
  const MayaAngelouAdvice: string :=
    "Maya Angelou would focus on the human " +
    "impact. She'd ask: 'What story does " +
    "this tell about who you are? How will " +
    "this help people grow?' Her advice: " +
    "Lead with courage and authenticity. " +
    "Make decisions that lift others up, not " +
    "just generate profit."

  /** The advice declared under `jamie_dimon`. */
  const JamieDimonAdvice: string :=
    "Jamie Dimon would stress-test for " +
    "worst-case scenarios. He'd ask: 'What " +
    "happens if everything goes wrong? Do " +
    "you have the balance sheet to survive a " +
    "downturn?' His advice: Build multiple " +
    "scenarios and make sure you can survive " +
    "the worst case."

  /** The advice declared under `charlie_munger`. */
  const CharlieMungerAdvice: string :=
    "Charlie Munger would invert the " +
    "problem. He'd ask: 'What would cause " +
    "this to fail completely? How might you " +
    "be fooling yourself?' His advice: Use " +
    "multiple mental models and create a " +
    "checklist of potential failure modes."

  /** The advice declared under `art_gensler`. */
  const ArtGenslerAdvice: string :=
    "Art Gensler would reframe this as a " +
    "design challenge. He'd ask: 'Who are we " +
    "really serving? What would the most " +
    "innovative solution look like?' His " +
    "advice: Start with user research, " +
    "create prototypes, and test before " +
    "committing."

  /** `ADVISORS`, in declaration order. */
  const AdviceTable: seq<(string, string)> := [
    ("tim_cook", TimCookAdvice),
    ("warren_buffett", WarrenBuffettAdvice),
    ("maya_angelou", MayaAngelouAdvice),
    ("jamie_dimon", JamieDimonAdvice),
    ("charlie_munger", CharlieMungerAdvice),
    ("art_gensler", ArtGenslerAdvice)
  ]

  /** The schema lists each advisor once. */
  lemma EnumHasNoDuplicates()
    ensures NoDuplicates(AdvisorEnum)
  {
    var initials := "twmjca";
    forall i | 0 <= i < |AdvisorEnum| ensures AdvisorEnum[i] != [] && AdvisorEnum[i][0] == initials[i] {
    }
  }

  /**
   * The schema's enumeration is exactly the keys of the table, in
   * declaration order, so the lookup of a requested key never fails.
   */
  lemma SchemaMatchesTable()
    ensures Keys(AdviceTable) == AdvisorEnum
    ensures DistinctKeys(AdviceTable)
  {
    var ks := Keys(AdviceTable);
    forall i | 0 <= i < |AdvisorEnum| ensures ks[i] == AdvisorEnum[i] {
    }
    EnumHasNoDuplicates();
  }

  /** `ADVISORS[key]` for a declared key: the advice declared under `key`. */
  function AdviceOf(table: seq<(string, string)>, key: string): (advice: string)
    requires DistinctKeys(table) && key in Keys(table)
    ensures advice == table[Position(table, key)].1
  {
    FindAt(table, key);
    Find(table, key).value
  }

  // ---------------------------------------------------------------------------
  // The label of a block
  // ---------------------------------------------------------------------------

  /** `key.replace('_', ' ').toUpperCase()`. */
  function Label(key: string): string
  {
    Upper(ReplaceFirst(key, '_', ' '))
  }

  /**
   * The label is the upper-cased key with only its first `_` turned into a
   * space: every later `_` is kept.
   */
  lemma LabelShape(key: string)
    ensures |Label(key)| == |key|
    ensures '_' in key ==> Label(key)[FirstIndex(key, '_')] == ' '
    ensures forall i :: 0 <= i < |key| && i != FirstIndex(key, '_') ==>
      Label(key)[i] == UpperChar(key[i])
    ensures forall i :: 0 <= i < |key| && key[i] == '_' && i != FirstIndex(key, '_') ==>
      Label(key)[i] == '_'
  {
  }

  /** A two-word key whose first word has no `_` is labelled `FIRST LAST`. */
  lemma {:induction false} LabelOfTwoWords(key: string, first: string, last: string, shown: string)
    requires key == first + "_" + last && '_' !in first
    requires shown == Upper(first) + " " + Upper(last)
    ensures Label(key) == shown
  {
    var k := |first|;
    assert key[k] == '_' && key[..k] == first && key[k + 1..] == last;
    assert FirstIndex(key, '_') == k;
    assert ReplaceFirst(key, '_', ' ') == first + " " + last;
    UpperOfConcat(first + " ", last);
    UpperOfConcat(first, " ");
    assert Upper(" ") == " ";
  }

  /** Upper-casing a lower-cased text is upper-casing the text. */
  lemma UpperOfLower(s: string)
    ensures Upper(Lower(s)) == Upper(s)
  {
    assert forall i :: 0 <= i < |s| ==> UpperChar(LowerChar(s[i])) == UpperChar(s[i]);
  }

  /**
   * A display name `First Last` upper-cases to the label of the key
   * `first_last`.
   */
  lemma NameLabelsKey(name: string, key: string, first: string, last: string)
    requires name == first + " " + last
    requires key == Lower(first) + "_" + Lower(last) && '_' !in Lower(first)
    ensures Upper(name) == Label(key)
  {
    var lf, ll := Lower(first), Lower(last);
    UpperOfLower(first);
    UpperOfLower(last);
    LabelOfTwoWords(key, lf, ll, Upper(lf) + " " + Upper(ll));
    UpperOfConcat(first + " ", last);
    UpperOfConcat(first, " ");
    assert Upper(" ") == " ";
  }

  /** For example, `tim_cook` is labelled `TIM COOK`. */
  lemma TimCookLabel()
    ensures Label("tim_cook") == "TIM COOK"
  {
    LabelOfTwoWords("tim_cook", "tim", "cook", "TIM COOK");
  }

  // ---------------------------------------------------------------------------
  // hold_board_meeting
  // ---------------------------------------------------------------------------

  /** One block: the bold label, a colon and the advice. */
  function Block(key: string, advice: string): string
  {
    "**" + Label(key) + "**: " + advice
  }

  /** `advisors.map(...)`: one block per requested key, in the order given. */
  function Blocks(table: seq<(string, string)>, advisors: seq<string>): seq<string>
    requires DistinctKeys(table)
    requires forall k :: k in advisors ==> k in Keys(table)
  {
    seq(|advisors|, i requires 0 <= i < |advisors| => Block(advisors[i], AdviceOf(table, advisors[i])))
  }

  /**
   * There is one block per requested key, in the order given and with
   * repeated keys rendered again: the `i`-th opens with the label of the
   * `i`-th key and ends with the advice declared under it, unchanged.
   */
  lemma BlockOfAdvisor(table: seq<(string, string)>, advisors: seq<string>, i: nat)
    requires DistinctKeys(table)
    requires forall k :: k in advisors ==> k in Keys(table)
    requires i < |advisors|
    ensures |Blocks(table, advisors)| == |advisors|
    ensures "**" + Label(advisors[i]) + "**: " <= Blocks(table, advisors)[i]
    ensures EndsWith(Blocks(table, advisors)[i], table[Position(table, advisors[i])].1)
  {
    OuterParts("**" + Label(advisors[i]) + "**: ", AdviceOf(table, advisors[i]), []);
    assert Block(advisors[i], AdviceOf(table, advisors[i])) ==
      "**" + Label(advisors[i]) + "**: " + AdviceOf(table, advisors[i]) + [];
  }

  /** A labelled header line: `**title**: value` and a line break. */
  function Line(title: string, value: string): string
  {
    "**" + title + "**: " + value + "\n"
  }

  const MeetingTitle: string := "# VIRTUAL BOARD MEETING\n\n"

  const ResponsesHeading: string := "\n## ADVISOR RESPONSES:\n\n"

  /** Everything before the blocks: title, topic, background and heading. */
  function MeetingHeader(topic: string, background: string): string
  {
    MeetingTitle + Line("Topic", topic) + Line("Background", background) + ResponsesHeading
  }

  /** Everything after the blocks: a rule and the closing line. */
  const MeetingFooter: string :=
    "\n\n---\n*Your virtual advisory board has spoken! " +
    "Consider the different perspectives as you make your decision.*"

  /** The meeting text around the rendered blocks, joined by blank lines. */
  function Meeting(topic: string, background: string, blocks: seq<string>): string
  {
    MeetingHeader(topic, background) + Join(blocks, "\n\n") + MeetingFooter
  }

  /**
   * The `hold_board_meeting` tool body. It reads no clock: the text is a
   * function of the table, the topic, the background and the keys alone.
   */
  function HoldBoardMeeting(table: seq<(string, string)>, topic: string, background: string, advisors: seq<string>): string
    requires DistinctKeys(table)
    requires forall k :: k in advisors ==> k in Keys(table)
  {
    Meeting(topic, background, Blocks(table, advisors))
  }

  /** The header echoes the topic and the background verbatim, each on its own labelled line. */
  lemma MeetingEchoesArguments(topic: string, background: string)
    ensures IsInfix(Line("Topic", topic), MeetingHeader(topic, background))
    ensures IsInfix(Line("Background", background), MeetingHeader(topic, background))
  {
    var t, g := Line("Topic", topic), Line("Background", background);
    InfixOfSuffix(MeetingTitle, t);
    InfixOfExtension(t, MeetingTitle + t, g);
    InfixOfExtension(t, MeetingTitle + t + g, ResponsesHeading);
    InfixOfConcat(MeetingTitle + t, g, ResponsesHeading);
  }

  /**
   * The meeting opens with the header, which ends with the responses
   * heading, and closes with the footer.
   */
  lemma MeetingFrame(topic: string, background: string, blocks: seq<string>)
    ensures MeetingHeader(topic, background) <= Meeting(topic, background, blocks)
    ensures EndsWith(MeetingHeader(topic, background), ResponsesHeading)
    ensures EndsWith(Meeting(topic, background, blocks), MeetingFooter)
  {
    OuterParts(MeetingHeader(topic, background), Join(blocks, "\n\n"), MeetingFooter);
    OuterParts(MeetingTitle + Line("Topic", topic) + Line("Background", background), [], ResponsesHeading);
  }

  /** Block `i` sits unchanged at its offset after the header. */
  lemma MeetingBlockAt(topic: string, background: string, blocks: seq<string>, i: nat)
    requires i < |blocks|
    ensures PartAt(Meeting(topic, background, blocks),
      |MeetingHeader(topic, background)| + Offset(blocks, "\n\n", i), blocks[i])
  {
    JoinedPartInContext(MeetingHeader(topic, background), blocks, "\n\n", MeetingFooter, i);
  }

  /**
   * A blank line follows block `i` when another block comes after it, and
   * block `i + 1` starts right after that blank line.
   */
  lemma MeetingSeparatorAt(topic: string, background: string, blocks: seq<string>, i: nat)
    requires i + 1 < |blocks|
    ensures PartAt(Meeting(topic, background, blocks),
      |MeetingHeader(topic, background)| + Offset(blocks, "\n\n", i) + |blocks[i]|, "\n\n")
    ensures Offset(blocks, "\n\n", i + 1) == Offset(blocks, "\n\n", i) + |blocks[i]| + 2
  {
    JoinedSeparatorInContext(MeetingHeader(topic, background), blocks, "\n\n", MeetingFooter, i);
  }

  // ---------------------------------------------------------------------------
  // list_advisors
  // ---------------------------------------------------------------------------

  /** The roster's entries: display name and one-line description, in roster order. */
  const RosterEntries: seq<(string, string)> := [
    ("Tim Cook", "Strategic leadership & operational excellence"),
    ("Warren Buffett", "Investment philosophy & business fundamentals  "),
    ("Maya Angelou", "Purpose-driven leadership & human impact"),
    ("Jamie Dimon", "Risk management & crisis leadership"),
    ("Charlie Munger", "Mental models & rational thinking"),
    ("Art Gensler", "Innovation & design thinking")
  ]

  /** One bulleted roster line: `• **name** - description`. */
  function RosterLine(name: string, description: string): string
  {
    "\U{2022} **" + name + "** - " + description
  }

  /** The roster lines, in roster order. */
  function RosterLines(entries: seq<(string, string)>): seq<string>
  {
    seq(|entries|, i requires 0 <= i < |entries| => RosterLine(entries[i].0, entries[i].1))
  }

  const RosterTitle: string := "Your Virtual Advisory Board:\n\n"

  const RosterFooter: string :=
    "\n\nUse \"hold_board_meeting\" to get their advice on any business challenge!"

  /** The `list_advisors` tool body: the same text on every call. */
  function ListAdvisors(): string
  {
    RosterTitle + Join(RosterLines(RosterEntries), "\n") + RosterFooter
  }

  /**
   * The roster names the advisors of the table in the table's order: the
   * `i`-th display name, upper-cased, is the label of the `i`-th key of
   * the schema, which lists the table's keys in order.
   */
  lemma RosterFollowsTable(i: nat)
    requires i < |AdvisorEnum|
    ensures |RosterEntries| == |AdvisorEnum|
    ensures Upper(RosterEntries[i].0) == Label(AdvisorEnum[i])
  {
    if i == 0 { TimCookOnRoster(); }
    else if i == 1 { WarrenBuffettOnRoster(); }
    else if i == 2 { MayaAngelouOnRoster(); }
    else if i == 3 { JamieDimonOnRoster(); }
    else if i == 4 { CharlieMungerOnRoster(); }
    else { ArtGenslerOnRoster(); }
  }

  /** Roster name 0 upper-cases to the label of schema key 0. */
  lemma TimCookOnRoster()
    ensures Upper(RosterEntries[0].0) == Label(AdvisorEnum[0])
  {
    NameLabelsKey(RosterEntries[0].0, AdvisorEnum[0], "Tim", "Cook");
  }

  /** Roster name 1 upper-cases to the label of schema key 1. */
  lemma WarrenBuffettOnRoster()
    ensures Upper(RosterEntries[1].0) == Label(AdvisorEnum[1])
  {
    NameLabelsKey(RosterEntries[1].0, AdvisorEnum[1], "Warren", "Buffett");
  }

  /** Roster name 2 upper-cases to the label of schema key 2. */
  lemma MayaAngelouOnRoster()
    ensures Upper(RosterEntries[2].0) == Label(AdvisorEnum[2])
  {
    NameLabelsKey(RosterEntries[2].0, AdvisorEnum[2], "Maya", "Angelou");
  }

  /** Roster name 3 upper-cases to the label of schema key 3. */
  lemma JamieDimonOnRoster()
    ensures Upper(RosterEntries[3].0) == Label(AdvisorEnum[3])
  {
    NameLabelsKey(RosterEntries[3].0, AdvisorEnum[3], "Jamie", "Dimon");
  }

  /** Roster name 4 upper-cases to the label of schema key 4. */
  lemma CharlieMungerOnRoster()
    ensures Upper(RosterEntries[4].0) == Label(AdvisorEnum[4])
  {
    NameLabelsKey(RosterEntries[4].0, AdvisorEnum[4], "Charlie", "Munger");
  }

  /** Roster name 5 upper-cases to the label of schema key 5. */
  lemma ArtGenslerOnRoster()
    ensures Upper(RosterEntries[5].0) == Label(AdvisorEnum[5])
  {
    NameLabelsKey(RosterEntries[5].0, AdvisorEnum[5], "Art", "Gensler");
  }

  /** Roster line `i` sits unchanged at its offset after the roster title. */
  lemma RosterLineAt(i: nat)
    requires i < |RosterEntries|
    ensures PartAt(ListAdvisors(),
      |RosterTitle| + Offset(RosterLines(RosterEntries), "\n", i),
      RosterLine(RosterEntries[i].0, RosterEntries[i].1))
  {
    JoinedPartInContext(RosterTitle, RosterLines(RosterEntries), "\n", RosterFooter, i);
  }
}
