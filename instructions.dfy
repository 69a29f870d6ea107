/**
 * The persona → system prompt and greeting builder
 * (packages/agent-config/src/instructions.ts).
 *
 * `buildSystemInstructions` appends up to three blocks to a fixed base block,
 * one `if` at a time; here each block is a function and the result is their
 * concatenation in source order. Optional fields follow JavaScript truthiness:
 * an absent field and `""` both count as missing.
 */
module Instructions {
  import opened Shared

  datatype AgentPersona = AgentPersona(
    ownerName: string,
    role: Option<string>,
    aboutMe: Option<string>,
    shareEmail: Option<string>,
    specialInstructions: Option<string>)

  const DEFAULT_PERSONA := AgentPersona("the owner", None, None, None, None)

  // The text of the base block, one line (or part of a line) per constant.
  const OPENING := "You are an AI assistant answering calls on behalf of "
  const OPENING_HEADER := "## Opening\n"
  const FIRST_RESPONSE := "In your FIRST response, always start by:\n"
  const IDENTIFY_AS := "- Identifying yourself as "
  const ASSISTANT_SUFFIX := "'s AI assistant"
  const UNAVAILABLE := "- Saying they're unavailable right now\n"
  const THEN_ADDRESS := "- Then addressing whatever the caller said or offering to help\n"
  const EXAMPLE_START := "Example first response: \"Hi, I'm "
  const EXAMPLE_REST_1 := "'s AI assistant. They're not available right now. "
  const EXAMPLE_REST_2 := "[then respond to what the caller said or offer to take a message]\"\n"
  const APPROACH_HEADER := "## Your Approach\n"
  const APPROACH_1 := "- Identify what type of caller this is (recruiter, client, sales, personal, etc.) "
  const APPROACH_1_END := "based on context\n"
  const APPROACH_2 := "- Adapt your responses accordingly\n"
  const APPROACH_3 := "- Take messages: get their name, contact info, and reason for calling\n"
  const APPROACH_4 := "- Keep responses short and natural\n"
  const GUIDELINES_HEADER := "## Guidelines\n"
  const GUIDELINE_1 := "- Be friendly and professional\n"
  const GUIDELINE_2 := "- Confirm key details by repeating them back\n"
  const NO_COMMITMENTS := "- Don't make commitments on "
  const BEHALF := "'s behalf\n"

  /** `ownerName, role` when the role is set, the bare owner name otherwise. */
  function OwnerDescription(p: AgentPersona): (d: string)
    ensures Truthy(p.role) ==> d == p.ownerName + ", " + p.role.value
    ensures !Truthy(p.role) ==> d == p.ownerName
  {
    if Truthy(p.role) then p.ownerName + ", " + p.role.value else p.ownerName
  }

  /** The first line of every prompt. */
  function OpeningLine(p: AgentPersona): string {
    OPENING + OwnerDescription(p) + ".\n"
  }

  /** The fixed block every prompt starts with. */
  function BaseBlock(p: AgentPersona): string {
    OpeningLine(p) + BaseBody(p)
  }

  /** A piece of a text template: literal text, or the owner's name spliced in. */
  datatype Piece = Text(text: string) | OwnerName

  /** The base block after its first line: opening rules, approach and guidelines. */
  const BASE_BODY: seq<Piece> := [
    Text("\n"), Text(OPENING_HEADER), Text(FIRST_RESPONSE),
    Text(IDENTIFY_AS), OwnerName, Text(ASSISTANT_SUFFIX), Text("\n"),
    Text(UNAVAILABLE), Text(THEN_ADDRESS), Text("\n"),
    Text(EXAMPLE_START), OwnerName, Text(EXAMPLE_REST_1), Text(EXAMPLE_REST_2), Text("\n"),
    Text(APPROACH_HEADER), Text(APPROACH_1), Text(APPROACH_1_END), Text(APPROACH_2), Text(APPROACH_3), Text(APPROACH_4), Text("\n"),
    Text(GUIDELINES_HEADER), Text(GUIDELINE_1), Text(GUIDELINE_2),
    Text(NO_COMMITMENTS), OwnerName, Text(BEHALF)]

  /** Fills a template with the owner's name. */
  function Render(t: seq<Piece>, ownerName: string): string {
    if t == [] then ""
    else (match t[0] case Text(s) => s case OwnerName => ownerName) + Render(t[1..], ownerName)
  }

  function BaseBody(p: AgentPersona): string {
    Render(BASE_BODY, p.ownerName)
  }

  const ABOUT_HEADER := "\n## About "
  const ABOUT_USE := "\nUse this to answer relevant questions, but don't volunteer all of it unprompted.\n"
  const SHARE_HEADER := "\n## Contact Info to Share\n"
  const SHARE_SUFFIX := " (share if asked or if caller needs to send information)\n"
  const NO_SHARE_HEADER := "\n## Contact Info\n"
  const NO_SHARE_LINE := "- Don't share personal contact information. Take their contact info instead.\n"
  const NO_SHARE_BLOCK := NO_SHARE_HEADER + NO_SHARE_LINE
  const SPECIAL_HEADER := "\n## Special Instructions\n"

  /** Where a heading's first letter sits, after its leading "\n## ". */
  const HEADING_LETTER := |"\n## "|
  /**
   * Where the two contact headings first differ: just past "Contact Info",
   * a space in the share heading and the line end in the other.
   */
  const CONTACT_HEADING_END := |"\n## Contact Info"|

  function AboutBlock(ownerName: string, aboutMe: string): string {
    ABOUT_HEADER + ownerName + "\n" + aboutMe + ABOUT_USE
  }

  function ShareBlock(email: string): string {
    SHARE_HEADER + "- Email: " + email + SHARE_SUFFIX
  }

  function SpecialBlock(special: string): string {
    SPECIAL_HEADER + special + "\n"
  }

  /** What the `aboutMe` step appends: its block, or nothing. */
  function AboutPart(p: AgentPersona): string {
    if Truthy(p.aboutMe) then AboutBlock(p.ownerName, p.aboutMe.value) else ""
  }

  /** What the contact step appends: exactly one of the two contact blocks. */
  function ContactPart(p: AgentPersona): string {
    if Truthy(p.shareEmail) then ShareBlock(p.shareEmail.value) else NO_SHARE_BLOCK
  }

  /** What the special-instructions step appends: its block, or nothing. */
  function SpecialPart(p: AgentPersona): string {
    if Truthy(p.specialInstructions) then SpecialBlock(p.specialInstructions.value) else ""
  }

  /** The three conditional steps of the builder, each appending to what came before. */
  function AppendSections(base: string, p: AgentPersona): string {
    base + AboutPart(p) + ContactPart(p) + SpecialPart(p)
  }

  /** Where each appended part sits after an arbitrary base. */
  lemma SectionsFollowBase(base: string, p: AgentPersona)
    ensures var r := AppendSections(base, p);
      && base <= r
      && r[|base|..] == AboutPart(p) + (ContactPart(p) + SpecialPart(p))
      && r[|base| + |AboutPart(p)|..] == ContactPart(p) + SpecialPart(p)
      && base + AboutPart(p) + ContactPart(p) <= r
      && r == (base + AboutPart(p) + ContactPart(p)) + SpecialPart(p)
  {
    ConcatLayout(base, AboutPart(p), ContactPart(p), SpecialPart(p));
  }

  /** The layout of a four-part concatenation, for any strings. */
  lemma ConcatLayout(w: string, x: string, y: string, z: string)
    ensures var r := w + x + y + z;
      && w <= r
      && r[|w|..] == x + (y + z)
      && r[|w| + |x|..] == y + z
      && w + x + y <= r
      && r == (w + x + y) + z
  {
    var r := w + x + y + z;
    assert r == w + (x + (y + z));
    assert (x + (y + z))[|x|..] == y + z;
  }

  /** The system prompt: base, then about, then contact, then special instructions. */
  function BuildSystemInstructions(p: AgentPersona): (r: string)
    ensures BaseBlock(p) <= r
    ensures |r| > |BaseBlock(p)|
  {
    SectionsFollowBase(BaseBlock(p), p);
    AppendSections(BaseBlock(p), p)
  }

  const GREETING_START := "Hi, this is "
  const GREETING_REST_1 := "'s AI assistant. They're not available right now, "
  const GREETING_REST_2 := "but I can take a message or help answer questions. What can I do for you?"

  /** The greeting; it reads only the owner's name. */
  function BuildGreeting(p: AgentPersona): (g: string)
    ensures "Hi, this is " + p.ownerName + "'s AI assistant." <= g
  {
    GREETING_START + p.ownerName + GREETING_REST_1 + GREETING_REST_2
  }

  /** The greeting depends on the owner's name and on nothing else in the persona. */
  lemma GreetingDependsOnlyOnOwner(p: AgentPersona, q: AgentPersona)
    requires p.ownerName == q.ownerName
    ensures BuildGreeting(p) == BuildGreeting(q)
  {
  }

  /** The prompt opens by naming `ownerName, role`, or just `ownerName` when the role is missing. */
  lemma OpeningNamesOwner(p: AgentPersona)
    ensures Truthy(p.role) ==> OPENING + p.ownerName + ", " + p.role.value + ".\n" <= BuildSystemInstructions(p)
    ensures !Truthy(p.role) ==> OPENING + p.ownerName + ".\n" <= BuildSystemInstructions(p)
  {
    PrefixOfConcat(OpeningLine(p), BaseBody(p));
    PrefixTransitive(OpeningLine(p), BaseBlock(p), BuildSystemInstructions(p));
    if Truthy(p.role) {
      Regroup(OPENING, p.ownerName, ", ", p.role.value, ".\n");
    }
  }

  lemma ShareBlockStartsWithHeader(email: string)
    ensures SHARE_HEADER <= ShareBlock(email)
  {
    ConcatLayout(SHARE_HEADER, "- Email: ", email, SHARE_SUFFIX);
  }

  lemma Regroup(a: string, b: string, c: string, d: string, e: string)
    ensures a + (b + c + d) + e == a + b + c + d + e
  {
  }

  lemma PrefixOfConcat(a: string, b: string)
    ensures a <= a + b
  {
  }

  /** A string is not a prefix of another that differs from it at some index. */
  lemma PrefixDecided(h: string, s: string, i: nat)
    requires i < |h| && i < |s| && h[i] != s[i]
    ensures !(h <= s)
  {
  }

  lemma PrefixIndex(a: string, b: string, i: nat)
    requires i < |a|
    ensures (a + b)[i] == a[i]
  {
  }

  lemma PrefixTransitive(a: string, b: string, c: string)
    requires a <= b && b <= c
    ensures a <= c
  {
  }

  /** The characters that tell the section headings apart. */
  lemma HeadingChars()
    ensures |SHARE_HEADER| > CONTACT_HEADING_END && SHARE_HEADER[HEADING_LETTER] == 'C' && SHARE_HEADER[CONTACT_HEADING_END] == ' '
    ensures |NO_SHARE_HEADER| > CONTACT_HEADING_END && NO_SHARE_HEADER[HEADING_LETTER] == 'C' && NO_SHARE_HEADER[CONTACT_HEADING_END] == '\n'
    ensures |ABOUT_HEADER| > HEADING_LETTER && ABOUT_HEADER[HEADING_LETTER] == 'A'
  {
  }

  /**
   * Both contact blocks open with the heading "## Contact Info"; the
   * character right after that heading tells them apart.
   */
  lemma ContactStartsWithHeading(p: AgentPersona)
    ensures |ContactPart(p)| > CONTACT_HEADING_END && ContactPart(p)[HEADING_LETTER] == 'C'
    ensures ContactPart(p)[CONTACT_HEADING_END] == ' ' <==> Truthy(p.shareEmail)
  {
    var c := ContactPart(p);
    HeadingChars();
    if Truthy(p.shareEmail) {
      assert c == SHARE_HEADER + c[|SHARE_HEADER|..];
      assert c[HEADING_LETTER] == SHARE_HEADER[HEADING_LETTER] && c[CONTACT_HEADING_END] == SHARE_HEADER[CONTACT_HEADING_END];
    } else {
      assert c == NO_SHARE_HEADER + NO_SHARE_LINE;
      assert c[HEADING_LETTER] == NO_SHARE_HEADER[HEADING_LETTER] && c[CONTACT_HEADING_END] == NO_SHARE_HEADER[CONTACT_HEADING_END];
    }
  }

  /**
   * Right after the base block the prompt starts an "About" section exactly
   * when `aboutMe` is set, and then that section carries `aboutMe` itself.
   */
  lemma AboutSectionIff(p: AgentPersona)
    ensures var rest := BuildSystemInstructions(p)[|BaseBlock(p)|..];
      (ABOUT_HEADER <= rest <==> Truthy(p.aboutMe))
      && (Truthy(p.aboutMe) ==> AboutBlock(p.ownerName, p.aboutMe.value) <= rest)
  {
    SectionsFollowBase(BaseBlock(p), p);
    var rest := BuildSystemInstructions(p)[|BaseBlock(p)|..];
    if Truthy(p.aboutMe) {
      var a := AboutBlock(p.ownerName, p.aboutMe.value);
      assert rest == a + (ContactPart(p) + SpecialPart(p));
      assert a == ABOUT_HEADER + a[|ABOUT_HEADER|..];
    } else {
      ContactStartsWithHeading(p);
      PrefixIndex(ContactPart(p), SpecialPart(p), HEADING_LETTER);
      HeadingChars();
      PrefixDecided(ABOUT_HEADER, rest, HEADING_LETTER);
    }
  }

  /**
   * After the optional "About" section comes exactly one contact section: the
   * one sharing `shareEmail` if and only if it is set, the one refusing to
   * share contact details if and only if it is not.
   */
  lemma ContactSectionExactlyOne(p: AgentPersona)
    ensures var rest := BuildSystemInstructions(p)[|BaseBlock(p)| + |AboutPart(p)|..];
      && (SHARE_HEADER <= rest <==> Truthy(p.shareEmail))
      && (NO_SHARE_BLOCK <= rest <==> !Truthy(p.shareEmail))
      && (Truthy(p.shareEmail) ==> ShareBlock(p.shareEmail.value) <= rest)
  {
    SectionsFollowBase(BaseBlock(p), p);
    var rest := BuildSystemInstructions(p)[|BaseBlock(p)| + |AboutPart(p)|..];
    assert rest == ContactPart(p) + SpecialPart(p);
    ContactStartsWithHeading(p);
    PrefixIndex(ContactPart(p), SpecialPart(p), CONTACT_HEADING_END);
    PrefixOfConcat(ContactPart(p), SpecialPart(p));
    HeadingChars();
    assert NO_SHARE_BLOCK[CONTACT_HEADING_END] == NO_SHARE_HEADER[CONTACT_HEADING_END];
    if Truthy(p.shareEmail) {
      ShareBlockStartsWithHeader(p.shareEmail.value);
      PrefixTransitive(SHARE_HEADER, ContactPart(p), rest);
      PrefixDecided(NO_SHARE_BLOCK, rest, CONTACT_HEADING_END);
    } else {
      PrefixDecided(SHARE_HEADER, rest, CONTACT_HEADING_END);
    }
  }

  /**
   * The "Special Instructions" section is present exactly when
   * `specialInstructions` is set, and then it is the last block of the prompt.
   */
  lemma SpecialSectionIffLast(p: AgentPersona)
    ensures var before := BaseBlock(p) + AboutPart(p) + ContactPart(p);
      var r := BuildSystemInstructions(p);
      && before <= r
      && (|r| > |before| <==> Truthy(p.specialInstructions))
      && (Truthy(p.specialInstructions) ==> r == before + SpecialBlock(p.specialInstructions.value))
  {
    SectionsFollowBase(BaseBlock(p), p);
  }

  /** The default persona names "the owner" and sets no optional field, so its prompt refuses to share contacts. */
  lemma DefaultPersonaPrompt()
    ensures DEFAULT_PERSONA.ownerName == "the owner"
    ensures !Truthy(DEFAULT_PERSONA.role) && !Truthy(DEFAULT_PERSONA.aboutMe)
    ensures !Truthy(DEFAULT_PERSONA.shareEmail) && !Truthy(DEFAULT_PERSONA.specialInstructions)
    ensures BuildSystemInstructions(DEFAULT_PERSONA) == BaseBlock(DEFAULT_PERSONA) + NO_SHARE_BLOCK
  {
    var base := BaseBlock(DEFAULT_PERSONA);
    SectionsFollowBase(base, DEFAULT_PERSONA);
    assert base + AboutPart(DEFAULT_PERSONA) == base;
  }
}
