/** Zuri, the landing page's chat assistant: a case-insensitive,
    substring-based, first-match-wins responder over a fixed knowledge base
    and a fixed table of keyword rules, and the chat log it appends to.

    The strings are kept exactly as the page's source spells them, including
    the characters produced by a mis-decoded UTF-8 bullet and apostrophe. */
module Zuri {
  import opened Wrappers
  import opened Text
  import opened Seqs

  // ------------------------------------------------------ knowledge base

  /** An entry of `knowledgeBase`, named after its id. */
  datatype Doc = ImplGuide1 | ImplGuide2 | ImplGuide3 | Flowcharts | WebsiteContent | Paper | Supplement | Handbook

  /** `knowledgeBase`, in its order. */
  const KnowledgeBase: seq<Doc> := [ImplGuide1, ImplGuide2, ImplGuide3, Flowcharts, WebsiteContent, Paper, Supplement, Handbook]

  /** The entry's `id`. */
  function Id(d: Doc): string
  {
    match d
    case ImplGuide1 => "impl-guide-1"
    case ImplGuide2 => "impl-guide-2"
    case ImplGuide3 => "impl-guide-3"
    case Flowcharts => "flowcharts"
    case WebsiteContent => "website-content"
    case Paper => "afribiobank-paper"
    case Supplement => "afribiobank-supplement"
    case Handbook => "medical-imaging-handbook"
  }

  /** The entry's `title`. */
  function Title(d: Doc): string
  {
    match d
    case ImplGuide1 => "AfriBiobank Technical Implementation Guide (Part 1)"
    case ImplGuide2 => "Implementation Guide (Part 2)"
    case ImplGuide3 => "Implementation Guide (Part 3)"
    case Flowcharts => "Process Flowcharts & Diagrams"
    case WebsiteContent => "Website Content & Copywriting Guide"
    case Paper => "AfriBiobank Paper (2025)"
    case Supplement => "AfriBiobank Paper Supplementary"
    case Handbook => "Handbook of Medical Imaging (Academic Press)"
  }

  /** The entry's `summary`. */
  function Summary(d: Doc): string
  {
    match d
    case ImplGuide1 =>
      "Defines the mission, system architecture, tech stack, and high-level platform design, including presentation, API gateway, microservices, data, storage, and security layers."
    case ImplGuide2 =>
      "Details the database dashboard, image analysis module, AI/ML functionality, federated learning, cloud node toolkit, and related deployment configurations."
    case ImplGuide3 =>
      "Covers semantic web layer (RDF/OMIABIS), agentic API, governance & compliance, API specs, database schemas, security, testing, and monitoring."
    case Flowcharts =>
      "Visual workflows for data upload, authentication, federated learning rounds, access requests, DICOM-to-RDF conversion, quality checks, and deployment."
    case WebsiteContent =>
      "Complete copy for landing page sections, platform pages, legal policies, UI messages, and marketing materials."
    case Paper =>
      "Outlines challenges in African medical imaging data sharing and proposes AfriBiobank with governance, federated learning, semantic web standards, and distributed infrastructure."
    case Supplement =>
      "Describes multi-stakeholder governance, including hospitals, researchers, governments, and advocates, plus a federated learning protocol for decentralized training."
    case Handbook =>
      "Text extraction pending. Provide a text summary or OCR version to include detailed coverage."
  }

  /** The entry's `keywords`, all lower case. */
  function Keywords(d: Doc): seq<string>
  {
    match d
    case ImplGuide1 => ["implementation guide", "architecture", "tech stack", "system design", "microservices", "api gateway"]
    case ImplGuide2 => ["dashboard", "image analysis", "ai", "ml", "federated learning", "cloud node toolkit"]
    case ImplGuide3 => ["semantic web", "omiabis", "rdf", "agentic api", "governance", "api specs", "security", "testing", "monitoring"]
    case Flowcharts => ["flowchart", "workflow", "upload", "access request", "dicom", "rdf", "quality"]
    case WebsiteContent => ["website content", "copy", "landing page", "faq", "terms", "privacy", "marketing"]
    case Paper => ["paper", "afribiobank", "data sharing", "governance", "federated learning", "semantic", "fhir", "dicom"]
    case Supplement => ["supplementary", "stakeholders", "governance", "federated learning", "protocol"]
    case Handbook => ["handbook", "medical imaging", "academic press"]
  }

  /** Whether the entry is marked `pending` (its source has no readable text yet). */
  predicate Pending(d: Doc)
  {
    d == Handbook
  }

  /** The four openers a knowledge reply may start with. */
  const Intros: seq<string> := [
    "Hmm from my understanding:",
    "Here\U{00E2}\U{20AC}\U{2122}s what I can share:",
    "Here\U{00E2}\U{20AC}\U{2122}s a quick summary:",
    "From what I see:"
  ]

  /** The bullet that starts each summary line. */
  const BulletMark := "\U{00E2}\U{20AC}\U{00A2} "

  const PendingNote := "Note: Some sources are pending readable text for deeper summaries."

  /** Some word occurs in the lower-cased text: `words.some(w => normalized.includes(w))`. */
  predicate Mentions(normalized: string, words: seq<string>)
  {
    exists k :: 0 <= k < |words| && Contains(normalized, words[k])
  }

  /** Some word occurs in the lower-cased text as a whole word. */
  predicate MentionsWord(normalized: string, words: seq<string>)
  {
    exists k :: 0 <= k < |words| && ContainsWord(normalized, words[k])
  }

  /** How a knowledge-base keyword is looked for: anywhere in the text, as
      the page does, or only as a whole word. */
  datatype Mode = Substring | WholeWord

  /** The entry's keywords occur in the lower-cased text. */
  predicate Relevant(mode: Mode, normalized: string, d: Doc)
  {
    if mode == Substring then Mentions(normalized, Keywords(d)) else MentionsWord(normalized, Keywords(d))
  }

  /** The knowledge-base filter's predicate. */
  function RelevantTo(mode: Mode, normalized: string): Doc -> bool
  {
    (d: Doc) => Relevant(mode, normalized, d)
  }

  /** The entries the text is relevant to, in knowledge-base order. */
  function Matches(mode: Mode, text: string): seq<Doc>
  {
    Filter(KnowledgeBase, RelevantTo(mode, ToLower(text)))
  }

  /** The matches are exactly the relevant entries, in knowledge-base order. */
  lemma MatchesExactly(mode: Mode, text: string)
    ensures var r, n := Matches(mode, text), ToLower(text);
      && IsSubsequence(r, KnowledgeBase)
      && (forall k :: 0 <= k < |r| ==> Relevant(mode, n, r[k]))
      && (forall k :: 0 <= k < |KnowledgeBase| && Relevant(mode, n, KnowledgeBase[k]) ==> KnowledgeBase[k] in r)
  {
    var n := ToLower(text);
    var r := Filter(KnowledgeBase, RelevantTo(mode, n));
    assert forall k :: 0 <= k < |r| ==> RelevantTo(mode, n)(r[k]);
  }

  /** One summary line. */
  function Bullet(d: Doc): string
  {
    BulletMark + Title(d) + ": " + Summary(d)
  }

  /** `matches.map(...)`. */
  function Bullets(es: seq<Doc>): (r: seq<string>)
    ensures |r| == |es|
    ensures forall k :: 0 <= k < |es| ==> r[k] == Bullet(es[k])
  {
    if es == [] then [] else [Bullet(es[0])] + Bullets(es[1..])
  }

  /** The template literal of `matchKnowledge`: the opener, the summary
      lines joined by newlines, and the note when one is due. */
  function Compose(intro: string, bullets: seq<string>, withNote: bool): string
  {
    intro + "\n" + JoinLines(bullets) + (if withNote then "\n" + PendingNote else "")
  }

  /** The reply's lines: the opener, the summary lines, and the note when one is due. */
  function ReplyLines(intro: string, bullets: seq<string>, withNote: bool): seq<string>
  {
    [intro] + bullets + (if withNote then [PendingNote] else [])
  }

  /** With the note, the reply is its lines joined by newlines. */
  lemma ComposeWithNote(intro: string, bullets: seq<string>)
    requires |bullets| > 0
    ensures Compose(intro, bullets, true) == JoinLines(ReplyLines(intro, bullets, true))
  {
    var tail := bullets + [PendingNote];
    assert ReplyLines(intro, bullets, true) == [intro] + tail;
    JoinSnoc(bullets, PendingNote);
    JoinCons(intro, tail);
  }

  /** Without the note, the reply is its lines joined by newlines. */
  lemma ComposeWithoutNote(intro: string, bullets: seq<string>)
    requires |bullets| > 0
    ensures Compose(intro, bullets, false) == JoinLines(ReplyLines(intro, bullets, false))
  {
    assert ReplyLines(intro, bullets, false) == [intro] + bullets;
    JoinCons(intro, bullets);
  }

  /** With at least one summary line, the reply is exactly its lines joined
      by newlines, and it starts with the opener. */
  lemma ComposeJoinsLines(intro: string, bullets: seq<string>, withNote: bool)
    requires |bullets| > 0
    ensures Compose(intro, bullets, withNote) == JoinLines(ReplyLines(intro, bullets, withNote))
    ensures intro != [] ==> Compose(intro, bullets, withNote)[0] == intro[0]
  {
    if withNote {
      ComposeWithNote(intro, bullets);
    } else {
      ComposeWithoutNote(intro, bullets);
    }
  }

  /** Some of the given entries is pending (`pending.length` is non-zero). */
  predicate AnyPending(matches: seq<Doc>)
  {
    |Filter(matches, Pending)| > 0
  }

  /** AnyPending holds exactly when one of the entries is pending. */
  lemma AnyPendingIff(matches: seq<Doc>)
    ensures AnyPending(matches) <==> exists k :: 0 <= k < |matches| && Pending(matches[k])
  {
    FilterEmptyIff(matches, Pending);
  }

  /** `matchKnowledge` with the random opener fixed by its index. */
  function MatchKnowledge(mode: Mode, text: string, intro: nat): Option<string>
    requires intro < |Intros|
  {
    var matches := Matches(mode, text);
    if |matches| == 0 then None else Some(Compose(Intros[intro], Bullets(matches), AnyPending(matches)))
  }

  /** There is no knowledge reply exactly when the text is relevant to no entry. */
  lemma NoKnowledgeIff(mode: Mode, text: string, intro: nat)
    requires intro < |Intros|
    ensures MatchKnowledge(mode, text, intro).None? <==>
      forall k :: 0 <= k < |KnowledgeBase| ==> !Relevant(mode, ToLower(text), KnowledgeBase[k])
  {
    FilterEmptyIff(KnowledgeBase, RelevantTo(mode, ToLower(text)));
  }

  /** Every opener is non-empty and starts with 'H' or 'F'. */
  lemma IntroStarts(intro: nat)
    requires intro < |Intros|
    ensures Intros[intro] != [] && (Intros[intro][0] == 'H' || Intros[intro][0] == 'F')
  {
    if intro == 0 {
    } else if intro == 1 {
    } else if intro == 2 {
    } else {
    }
  }

  /** A knowledge reply is the opener, then one bullet per matching entry in
      knowledge-base order, then the note exactly when a matched entry is
      pending, joined by newlines; so it starts with the opener's letter. */
  lemma KnowledgeReplyLines(mode: Mode, text: string, intro: nat)
    requires intro < |Intros|
    ensures var matches, r := Matches(mode, text), MatchKnowledge(mode, text, intro);
      r.Some? ==>
        && r.value == JoinLines(ReplyLines(
             Intros[intro], Bullets(matches), exists k :: 0 <= k < |matches| && Pending(matches[k])))
        && (r.value[0] == 'H' || r.value[0] == 'F')
  {
    var matches := Matches(mode, text);
    if |matches| > 0 {
      AnyPendingIff(matches);
      IntroStarts(intro);
      ComposeJoinsLines(Intros[intro], Bullets(matches), AnyPending(matches));
    }
  }

  // -------------------------------------------------------- keyword rules

  /** The quick-reply buttons, by their `id`. */
  datatype QuickReply = DatasetKey | FederatedKey | AccessKey | PrivacyKey

  /** `responseMap`. */
  function ResponseMap(key: QuickReply): string
  {
    match key
    case DatasetKey =>
      "Got it. Filters applied: modality = MRI, anatomy = brain, pathology = tumor, country = Nigeria. I found 4 datasets (2,340 scans). Want me to narrow by age range or institution?"
    case FederatedKey =>
      "Federated learning trains models across hospitals without moving patient data. Only model updates are shared, keeping data local and private. Want a step-by-step flow?"
    case AccessKey =>
      "I can guide you through the access request. You will need ethics approval, a brief project description, and a data usage agreement. Ready to start?"
    case PrivacyKey =>
      "We use de-identification, encryption, access controls, and audit logs. You approve access and can revoke it anytime. Want the full privacy checklist?"
  }

  /** The label of each quick-reply button, which is also the text it sends. */
  function Label(key: QuickReply): string
  {
    match key
    case DatasetKey => "Find MRI brain tumors in Nigeria"
    case FederatedKey => "Explain federated learning"
    case AccessKey => "Request dataset access"
    case PrivacyKey => "How do you protect privacy?"
  }

  const PediatricReply :=
    "Searching pediatric brain imaging datasets. I can filter by modality (MRI/CT), country, age range, or pathology. Which do you prefer?"
  const BrainReply :=
    "Looking for brain imaging data. Tell me the modality (MRI/CT), age group, and country so I can refine results."
  const ModalityReply :=
    "Got it. Tell me the anatomy, pathology, and country so I can narrow down the dataset list."
  const DatasetReply :=
    "I can help you find datasets by modality, anatomy, disease group, country, and age range. What are you studying?"
  const GovernanceReply :=
    "AfriBiobank uses governance frameworks covering ethics, consent, access control, and auditability. Want a summary of the compliance stack?"
  const ApiReply :=
    "I can guide you through API usage, authentication, and dataset search. What are you trying to build?"
  const FallbackReply :=
    "I can help with datasets, onboarding, governance, and API guidance. Tell me your goal or ask a specific question so I can narrow it down."

  /** The tests of `findResponse`'s if-chain, named after the reply they give. */
  datatype Rule = PediatricBrain | Brain | Modality | DatasetSearch | Federated | Privacy | Access | Governance | Api

  /** The rules in the order `findResponse` tries them. */
  const Rules: seq<Rule> := [PediatricBrain, Brain, Modality, DatasetSearch, Federated, Privacy, Access, Governance, Api]

  /** The words that must all occur for the rule to fire. */
  function AllOf(rule: Rule): seq<string>
  {
    if rule == PediatricBrain then ["brain"] else []
  }

  /** The words of which at least one must occur for the rule to fire. */
  function AnyOf(rule: Rule): seq<string>
  {
    match rule
    case PediatricBrain => ["child", "pediatric"]
    case Brain => ["brain", "neuro"]
    case Modality => ["mri", "ct", "x-ray", "ultrasound", "pet"]
    case DatasetSearch => ["dataset", "data", "images", "scans"]
    case Federated => ["federated", "fl"]
    case Privacy => ["privacy", "security"]
    case Access => ["access", "request", "approval"]
    case Governance => ["governance", "policy", "compliance"]
    case Api => ["api", "sdk", "integration"]
  }

  /** The reply a rule returns. */
  function RuleReply(rule: Rule): string
  {
    match rule
    case PediatricBrain => PediatricReply
    case Brain => BrainReply
    case Modality => ModalityReply
    case DatasetSearch => DatasetReply
    case Federated => ResponseMap(FederatedKey)
    case Privacy => ResponseMap(PrivacyKey)
    case Access => ResponseMap(AccessKey)
    case Governance => GovernanceReply
    case Api => ApiReply
  }

  /** Every word of AllOf and at least one word of AnyOf occur in the lower-cased text. */
  predicate Fires(rule: Rule, normalized: string)
  {
    && (forall k :: 0 <= k < |AllOf(rule)| ==> Contains(normalized, AllOf(rule)[k]))
    && Mentions(normalized, AnyOf(rule))
  }

  /** The index of the first rule that fires, or |rules| when none does. */
  function FirstFiring(rules: seq<Rule>, normalized: string): (i: nat)
    ensures i <= |rules|
    ensures i < |rules| ==> Fires(rules[i], normalized)
    ensures forall j :: 0 <= j < i ==> !Fires(rules[j], normalized)
  {
    if rules == [] then 0
    else if Fires(rules[0], normalized) then 0
    else 1 + FirstFiring(rules[1..], normalized)
  }

  /** Which branch of `findResponse` answers: the knowledge base (with the
      opener and the matched entries), one of the keyword rules, or the
      closing fallback. */
  datatype Answer = FromKnowledge(intro: nat, matches: seq<Doc>) | FromRule(rule: Rule) | Fallback

  /** The if-chain after the knowledge lookup: the first rule that fires, or the fallback. */
  function KeywordAnswer(normalized: string): Answer
  {
    var i := FirstFiring(Rules, normalized);
    if i < |Rules| then FromRule(Rules[i]) else Fallback
  }

  /** The branch of `findResponse` that answers the text. */
  function Respond(mode: Mode, text: string, intro: nat): Answer
    requires intro < |Intros|
  {
    var matches := Matches(mode, text);
    if |matches| > 0 then FromKnowledge(intro, matches) else KeywordAnswer(ToLower(text))
  }

  /** The text of an answer. */
  function AnswerText(a: Answer): string
    requires a.FromKnowledge? ==> a.intro < |Intros|
  {
    match a
    case FromKnowledge(intro, matches) => Compose(Intros[intro], Bullets(matches), AnyPending(matches))
    case FromRule(rule) => RuleReply(rule)
    case Fallback => FallbackReply
  }

  /** `findResponse`: the knowledge reply whenever there is one, otherwise the
      keyword rules on the lower-cased text. */
  function FindResponse(mode: Mode, text: string, intro: nat): (r: string)
    requires intro < |Intros|
    ensures MatchKnowledge(mode, text, intro).Some? ==> r == MatchKnowledge(mode, text, intro).value
    ensures MatchKnowledge(mode, text, intro).None? ==> r == AnswerText(KeywordAnswer(ToLower(text)))
  {
    AnswerText(Respond(mode, text, intro))
  }

  /** The first rule that fires is the one FirstFiring finds. */
  lemma FirstFiringIs(rules: seq<Rule>, normalized: string, i: nat)
    requires i <= |rules|
    requires i < |rules| ==> Fires(rules[i], normalized)
    requires forall j :: 0 <= j < i ==> !Fires(rules[j], normalized)
    ensures FirstFiring(rules, normalized) == i
  {
  }

  /** A text relevant to some entry is answered from the knowledge base,
      ahead of every keyword rule, with the opener chosen and the matches. */
  lemma KnowledgeFirst(mode: Mode, text: string, intro: nat, k: nat)
    requires intro < |Intros| && k < |KnowledgeBase|
    requires Relevant(mode, ToLower(text), KnowledgeBase[k])
    ensures Respond(mode, text, intro) == FromKnowledge(intro, Matches(mode, text))
  {
    NoKnowledgeIff(mode, text, intro);
  }

  /** A text relevant to no entry is answered by the first rule that fires,
      whatever later rules would say, or by the fallback when none fires. */
  lemma FirstRuleWins(mode: Mode, text: string, intro: nat, i: nat)
    requires intro < |Intros|
    requires forall k :: 0 <= k < |KnowledgeBase| ==> !Relevant(mode, ToLower(text), KnowledgeBase[k])
    requires i <= |Rules|
    requires i < |Rules| ==> Fires(Rules[i], ToLower(text))
    requires forall j :: 0 <= j < i ==> !Fires(Rules[j], ToLower(text))
    ensures Respond(mode, text, intro) == if i < |Rules| then FromRule(Rules[i]) else Fallback
  {
    NoKnowledgeIff(mode, text, intro);
    FirstFiringIs(Rules, ToLower(text), i);
  }

  /** 'brain' together with 'child' or 'pediatric' fires the pediatric rule,
      which is tried before the plain 'brain' rule. */
  lemma PediatricBeforeBrain(normalized: string)
    requires Contains(normalized, "brain")
    requires Contains(normalized, "child") || Contains(normalized, "pediatric")
    ensures Fires(Rules[0], normalized) && Rules[0] == PediatricBrain
    ensures KeywordAnswer(normalized) == FromRule(PediatricBrain)
  {
    assert Contains(normalized, AllOf(PediatricBrain)[0]);
    if Contains(normalized, "child") {
      assert Contains(normalized, AnyOf(PediatricBrain)[0]);
    } else {
      assert Contains(normalized, AnyOf(PediatricBrain)[1]);
    }
    FirstFiringIs(Rules, normalized, 0);
  }

  /** Matching ignores letter case: a text and its lower-cased form get the same answer. */
  lemma CaseInsensitive(mode: Mode, text: string, intro: nat)
    requires intro < |Intros|
    ensures Respond(mode, text, intro) == Respond(mode, ToLower(text), intro)
    ensures FindResponse(mode, text, intro) == FindResponse(mode, ToLower(text), intro)
  {
    ToLowerIdempotent(text);
  }

  /** A rule that cannot fire never answers. */
  lemma SilentRuleNeverAnswers(mode: Mode, text: string, intro: nat, rule: Rule)
    requires intro < |Intros|
    requires !Fires(rule, ToLower(text))
    ensures Respond(mode, text, intro) != FromRule(rule)
  {
  }

  // ------------------------------------------------ keyword inside a word

  /** As written, any text containing 'brain' is answered from the knowledge
      base: the keyword 'ai' of the second implementation guide occurs
      inside 'brain'. */
  lemma BrainMatchesKnowledge(text: string, intro: nat)
    requires intro < |Intros|
    requires Contains(ToLower(text), "brain")
    ensures Respond(Substring, text, intro).FromKnowledge?
  {
    var n := ToLower(text);
    ContainsIffOccurs(n, "brain");
    var i: nat :| OccursAt(n, "brain", i);
    assert n[i + 2..i + 4] == n[i..i + 5][2..4];
    assert OccursAt(n, "ai", i + 2);
    ContainsIffOccurs(n, "ai");
    assert Contains(n, Keywords(KnowledgeBase[1])[2]);
    KnowledgeFirst(Substring, text, intro, 1);
  }

  /** As written, the pediatric rule never answers any text. */
  lemma PediatricRuleUnreachable(text: string, intro: nat)
    requires intro < |Intros|
    ensures Respond(Substring, text, intro) != FromRule(PediatricBrain)
  {
    var n := ToLower(text);
    if Contains(n, "brain") {
      BrainMatchesKnowledge(text, intro);
    } else {
      assert !Contains(n, AllOf(PediatricBrain)[0]);
      SilentRuleNeverAnswers(Substring, text, intro, PediatricBrain);
    }
  }

  /** As written, the privacy rule never answers any text: both of its words
      are also knowledge-base keywords, so the knowledge reply comes first.
      Only the privacy quick reply shows that rule's text. */
  lemma PrivacyRuleUnreachable(text: string, intro: nat)
    requires intro < |Intros|
    ensures Respond(Substring, text, intro) != FromRule(Privacy)
  {
    var n := ToLower(text);
    if Contains(n, "privacy") {
      assert Contains(n, Keywords(KnowledgeBase[4])[5]);
      KnowledgeFirst(Substring, text, intro, 4);
    } else if Contains(n, "security") {
      assert Contains(n, Keywords(KnowledgeBase[2])[6]);
      KnowledgeFirst(Substring, text, intro, 2);
    } else {
      assert !Mentions(n, AnyOf(Privacy));
      SilentRuleNeverAnswers(Substring, text, intro, Privacy);
    }
  }

  // ------------------------------------------ the whole-word correction

  /** With whole-word matching, a two-word question is answered from the
      knowledge base only when one of its words, or the pair, is a keyword. */
  lemma WholeWordPairAnswer(text: string, intro: nat, a: string, b: string)
    requires intro < |Intros|
    requires ToLower(text) == a + " " + b && |a| > 0 && |b| > 0
    requires forall k :: 0 <= k < |a| ==> WordChar(a[k])
    requires forall k :: 0 <= k < |b| ==> WordChar(b[k])
    requires forall k, w :: 0 <= k < |KnowledgeBase| && 0 <= w < |Keywords(KnowledgeBase[k])| ==>
      Keywords(KnowledgeBase[k])[w] != a && Keywords(KnowledgeBase[k])[w] != b && Keywords(KnowledgeBase[k])[w] != a + " " + b
    ensures Respond(WholeWord, text, intro) == KeywordAnswer(ToLower(text))
  {
    var n := ToLower(text);
    forall k | 0 <= k < |KnowledgeBase| ensures !Relevant(WholeWord, n, KnowledgeBase[k]) {
      var kws := Keywords(KnowledgeBase[k]);
      forall w | 0 <= w < |kws| ensures !ContainsWord(n, kws[w]) {
        if ContainsWord(n, kws[w]) {
          WholeWordsOfPair(a, b, kws[w]);
        }
      }
    }
    NoKnowledgeIff(WholeWord, text, 0);
  }

  /** 'pediatric' is not a keyword of the entry. */
  lemma PediatricNotKeyword(d: Doc)
    ensures "pediatric" !in Keywords(d)
  {
  }

  /** 'brain' is not a keyword of the entry. */
  lemma BrainNotKeyword(d: Doc)
    ensures "brain" !in Keywords(d)
  {
  }

  /** 'pediatric brain' is not a keyword of the entry. */
  lemma PediatricBrainNotKeyword(d: Doc)
    ensures "pediatric brain" !in Keywords(d)
  {
  }

  /** With whole-word matching, no entry is relevant to 'pediatric brain'. */
  lemma PediatricBrainNoKnowledge(intro: nat)
    requires intro < |Intros|
    ensures Respond(WholeWord, "pediatric brain", intro) == KeywordAnswer("pediatric brain")
  {
    var a, b := "pediatric", "brain";
    var n := a + " " + b;
    assert n == "pediatric brain";
    ToLowerOfLower(n);
    forall k, w | 0 <= k < |KnowledgeBase| && 0 <= w < |Keywords(KnowledgeBase[k])|
      ensures Keywords(KnowledgeBase[k])[w] != a && Keywords(KnowledgeBase[k])[w] != b && Keywords(KnowledgeBase[k])[w] != n
    {
      PediatricNotKeyword(KnowledgeBase[k]);
      BrainNotKeyword(KnowledgeBase[k]);
      PediatricBrainNotKeyword(KnowledgeBase[k]);
    }
    WholeWordPairAnswer(n, intro, a, b);
  }

  /** With whole-word matching, 'pediatric brain' reaches the pediatric rule
      that the substring matcher never lets answer. */
  lemma PediatricReachableWholeWord(intro: nat)
    requires intro < |Intros|
    ensures Respond(WholeWord, "pediatric brain", intro) == FromRule(PediatricBrain)
  {
    var n := "pediatric brain";
    assert OccursAt(n, "brain", 10);
    assert OccursAt(n, "pediatric", 0);
    ContainsIffOccurs(n, "brain");
    ContainsIffOccurs(n, "pediatric");
    PediatricBeforeBrain(n);
    PediatricBrainNoKnowledge(intro);
  }
}
