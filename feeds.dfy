/** The two notification feeds of the dashboard: customer messages (with
    replies and a canned translation) and audience opportunities. Both keep
    only the five newest items and show ages in hour and day buckets.
    Random draws and clock readings are parameters. */
module Feeds {
  import opened Common

  const HourMillis := 1000 * 60 * 60

  /** The age label: below one hour "Just now", below a day "<N>h ago",
      otherwise "<D>d ago" with D the number of whole days. Ages are whole
      hours rounded down (`Math.floor`), so a timestamp in the future reads
      "Just now". */
  function FormatTimeAgo(nowMillis: int, timestampMillis: int): (text: string)
    ensures var hours := (nowMillis - timestampMillis) / HourMillis;
      && (hours < 1 <==> text == "Just now")
      && (1 <= hours < 24 ==> text == NatToString(hours) + "h ago")
      && (hours >= 24 ==> text == NatToString(hours / 24) + "d ago")
  {
    var diffInHours := (nowMillis - timestampMillis) / HourMillis;
    AgoDiffers(diffInHours);
    AgoDiffers(diffInHours / 24);
    if diffInHours < 1 then "Just now"
    else if diffInHours < 24 then NatToString(diffInHours) + "h ago"
    else NatToString(diffInHours / 24) + "d ago"
  }

  /** An "<N>h ago" or "<N>d ago" label never reads "Just now". */
  lemma AgoDiffers(n: int)
    ensures n >= 0 ==> NatToString(n) + "h ago" != "Just now" && NatToString(n) + "d ago" != "Just now"
  {
    if n >= 0 {
      var h := NatToString(n) + "h ago";
      var d := NatToString(n) + "d ago";
      assert h[|h| - 1] == 'o' && d[|d| - 1] == 'o';
    }
  }

  /** The number in an hour or day label reads back as the age. */
  lemma FormatTimeAgoRoundTrip(nowMillis: int, timestampMillis: int)
    requires (nowMillis - timestampMillis) / HourMillis >= 1
    ensures var hours := (nowMillis - timestampMillis) / HourMillis;
      var text := FormatTimeAgo(nowMillis, timestampMillis);
      && |text| > 5
      && AllDigits(text[..|text| - 5])
      && DigitsValue(text[..|text| - 5]) == (if hours < 24 then hours else hours / 24)
      && text[|text| - 5..] == (if hours < 24 then "h ago" else "d ago")
  {
    var hours := (nowMillis - timestampMillis) / HourMillis;
    var n := if hours < 24 then hours else hours / 24;
    var suffix := if hours < 24 then "h ago" else "d ago";
    NatToStringRoundTrip(n);
    assert (NatToString(n) + suffix)[..|NatToString(n)|] == NatToString(n);
  }

  const FeedLimit := 5

  /** `[item, ...feed.slice(0, 4)]`: the new item first, then at most four
      of the previous items in their order. */
  function PrependBounded<T>(item: T, feed: seq<T>): (r: seq<T>)
    ensures |r| == Min(FeedLimit, |feed| + 1)
    ensures r[0] == item
    ensures forall i :: 1 <= i < |r| ==> r[i] == feed[i - 1]
  {
    [item] + (if |feed| <= FeedLimit - 1 then feed else feed[..FeedLimit - 1])
  }

  /** `list[Math.floor(r * list.length)]` for r = Math.random(). */
  function Pick<T>(list: seq<T>, r: real): (x: T)
    requires |list| > 0 && 0.0 <= r < 1.0
    ensures x in list
  {
    var n := |list| as real;
    assert r * n < n by {
      assert (1.0 - r) * n > 0.0;
    }
    var i := (r * n).Floor;
    list[i]
  }

  predicate IsRandomDraw(r: real) { 0.0 <= r < 1.0 }

  // ---------------------------------------------------------------------
  // Customer messages
  // ---------------------------------------------------------------------

  datatype Message = Message(
    id: string,
    customerName: string,
    customerLocation: string,
    originalMessage: string,
    translatedMessage: string,
    originalLanguage: string,
    timestamp: int,
    replied: bool,
    myReply: Option<string>,
    translatedReply: Option<string>)

  datatype Customer = Customer(name: string, location: string, language: string)

  /** A mock question. As written, `en` holds the customer's wording and
      `original` the English one; the message takes its original text from
      `en` and its translation from `original`. */
  datatype Question = Question(en: string, original: string)

  const Customers := [
    Customer("Emma Wilson", "UK", "English"),
    Customer("Carlos Rodriguez", "Spain", "Spanish"),
    Customer("Li Wei", "China", "Chinese"),
    Customer("Ahmed Hassan", "UAE", "Arabic")]

  const Questions := [
    Question("Is this piece available for international shipping?", "Is this piece available for international shipping?"),
    Question("¿Cuánto tiempo toma crear una pieza similar?", "How long does it take to create a similar piece?"),
    Question("这件作品使用了什么材料？", "What materials were used in this artwork?"),
    Question("هل يمكنك إنشاء قطعة مخصصة؟", "Can you create a custom piece?")]

  /** The message that arrives at time `now` from the customer and question
      drawn by rCustomer and rQuestion: not yet replied to. */
  function NewMessage(now: nat, rCustomer: real, rQuestion: real): (m: Message)
    requires IsRandomDraw(rCustomer) && IsRandomDraw(rQuestion)
    ensures m.id == NatToString(now) && m.timestamp == now
    ensures !m.replied && m.myReply.None? && m.translatedReply.None?
    ensures exists c :: (c in Customers && m.customerName == c.name
      && m.customerLocation == c.location && m.originalLanguage == c.language)
    ensures exists q :: q in Questions && m.originalMessage == q.en && m.translatedMessage == q.original
  {
    var customer := Pick(Customers, rCustomer);
    var question := Pick(Questions, rQuestion);
    Message(NatToString(now), customer.name, customer.location, question.en,
            question.original, customer.language, now, false, None, None)
  }

  const HansQuestion := "Was sind die Abmessungen dieses Stoffes?"
  const HansQuestionEnglish := "What are the dimensions of this fabric?"
  const MarieQuestion := "Pouvez-vous créer une pièce personnalisée avec des motifs floraux?"
  const MarieQuestionEnglish := "Can you create a custom piece with floral motifs?"
  const MarieReply := "Yes, I can create beautiful custom pieces with traditional floral motifs. It would take about 15 days to complete."
  const MarieReplyFrench := "Oui, je peux créer de belles pièces personnalisées avec des motifs floraux traditionnels. Il faudrait environ 15 jours pour terminer."
  const YukiQuestion := "この作品の制作過程について教えてください。"
  const YukiQuestionEnglish := "Please tell me about the creation process of this artwork."

  /** The feed the panel starts with at time `now`: three messages with ids
      "1" to "3", received 2, 5 and 8 hours earlier; only the French one has
      been answered. */
  function MockMessages(now: int): (feed: seq<Message>)
    ensures |feed| == 3
    ensures feed[0].id == "1" && feed[1].id == "2" && feed[2].id == "3"
    ensures !feed[0].replied && feed[1].replied && !feed[2].replied
    ensures forall i :: 0 <= i < 3 ==> (feed[i].replied <==> feed[i].myReply.Some? && feed[i].translatedReply.Some?)
    ensures feed[0].timestamp == now - 2 * HourMillis && feed[1].timestamp == now - 5 * HourMillis
      && feed[2].timestamp == now - 8 * HourMillis
  {
    [
      Message("1", "Hans Mueller", "Germany", HansQuestion, HansQuestionEnglish, "German",
        now - 2 * HourMillis, false, None, None),
      Message("2", "Marie Dubois", "France", MarieQuestion, MarieQuestionEnglish, "French",
        now - 5 * HourMillis, true, Some(MarieReply), Some(MarieReplyFrench)),
      Message("3", "Yuki Tanaka", "Japan", YukiQuestion, YukiQuestionEnglish, "Japanese",
        now - 8 * HourMillis, false, None, None)
    ]
  }

  /** Seen when the panel opens, the mock messages read "2h ago", "5h ago"
      and "8h ago". */
  lemma MockMessageAges(now: int)
    ensures var feed := MockMessages(now);
      && FormatTimeAgo(now, feed[0].timestamp) == "2h ago"
      && FormatTimeAgo(now, feed[1].timestamp) == "5h ago"
      && FormatTimeAgo(now, feed[2].timestamp) == "8h ago"
  {
    ElapsedHours(now, 2);
    ElapsedHours(now, 5);
    ElapsedHours(now, 8);
  }

  /** The canned replies of the mock translator. */
  const Translations: map<string, string> := map[
    "German" := "Ja, ich kann wunderschöne maßgeschneiderte Stücke mit traditionellen Motiven erstellen.",
    "French" := "Oui, je peux créer de belles pièces personnalisées avec des motifs traditionnels.",
    "Japanese" := "はい、伝統的なモチーフを使った美しいカスタム作品を作ることができます。",
    "Spanish" := "Sí, puedo crear hermosas piezas personalizadas con motivos tradicionales.",
    "Chinese" := "是的，我可以创作带有传统图案的美丽定制作品。",
    "Arabic" := "نعم، يمكنني إنشاء قطع مخصصة جميلة بزخارف تقليدية."]

  /** `translations[language] || text`: the canned string for one of the six
      known languages, and the text itself for any other. */
  function TranslateToCustomerLanguage(text: string, language: string): (r: string)
    ensures language in Translations ==> r == Translations[language]
    ensures language !in Translations ==> r == text
  {
    if language in Translations && Translations[language] != "" then Translations[language] else text
  }

  /** The six languages with a canned reply; English is not among them. */
  lemma TranslationLanguages()
    ensures Translations.Keys == {"German", "French", "Japanese", "Spanish", "Chinese", "Arabic"}
    ensures TranslateToCustomerLanguage("Thank you!", "English") == "Thank you!"
  {
  }

  /** A character `String.prototype.trim` removes: ECMAScript white space
      and line terminators. */
  predicate IsTrimmed(c: char)
  {
    c == '\t' || c == '\n' || c == '\U{000B}' || c == '\U{000C}' || c == '\r' || c == ' '
    || c == '\U{00A0}' || c == '\U{1680}' || ('\U{2000}' <= c <= '\U{200A}')
    || c == '\U{2028}' || c == '\U{2029}' || c == '\U{202F}' || c == '\U{205F}'
    || c == '\U{3000}' || c == '\U{FEFF}'
  }

  /** `!text.trim()`: the text is empty once white space is trimmed. */
  predicate IsBlank(text: string)
  {
    forall i :: 0 <= i < |text| ==> IsTrimmed(text[i])
  }

  /** Marks every message with the id as replied, with the reply and its
      translation; nothing else changes. */
  function MarkReplied(messages: seq<Message>, id: string, reply: string, translated: string): (r: seq<Message>)
    ensures |r| == |messages|
    ensures forall i :: 0 <= i < |messages| && messages[i].id != id ==> r[i] == messages[i]
    ensures forall i :: 0 <= i < |messages| && messages[i].id == id ==>
      && r[i].replied && r[i].myReply == Some(reply) && r[i].translatedReply == Some(translated)
      && r[i].(replied := messages[i].replied, myReply := messages[i].myReply,
               translatedReply := messages[i].translatedReply) == messages[i]
  {
    if messages == [] then []
    else
      var m := messages[0];
      [if m.id == id then m.(replied := true, myReply := Some(reply), translatedReply := Some(translated)) else m]
      + MarkReplied(messages[1..], id, reply, translated)
  }

  /** The customer-messages panel: the feed, the message being answered, the
      reply being typed and whether the reply dialog is open. */
  class MessageFeed {
    var messages: seq<Message>
    var selected: Option<Message>
    var replyText: string
    var showReplyModal: bool

    constructor (initial: seq<Message>)
      ensures messages == initial && selected.None? && replyText == "" && !showReplyModal
    {
      messages := initial;
      selected := None;
      replyText := "";
      showReplyModal := false;
    }

    /** Loads the mock feed. */
    method Generate(now: int)
      modifies this
      ensures messages == MockMessages(now)
      ensures selected == old(selected) && replyText == old(replyText) && showReplyModal == old(showReplyModal)
    {
      messages := MockMessages(now);
    }

    /** One firing of the 15-second interval: a new message arrives only
        when the gate draw exceeds 0.8. */
    method Tick(now: nat, rGate: real, rCustomer: real, rQuestion: real)
      requires IsRandomDraw(rGate) && IsRandomDraw(rCustomer) && IsRandomDraw(rQuestion)
      modifies this
      ensures rGate > 0.8 ==> messages == PrependBounded(NewMessage(now, rCustomer, rQuestion), old(messages))
      ensures rGate <= 0.8 ==> messages == old(messages)
      ensures selected == old(selected) && replyText == old(replyText) && showReplyModal == old(showReplyModal)
    {
      if rGate > 0.8 {
        AddNewMessage(now, rCustomer, rQuestion);
      }
    }

    /** A new message goes first and only the five newest are kept. */
    method AddNewMessage(now: nat, rCustomer: real, rQuestion: real)
      requires IsRandomDraw(rCustomer) && IsRandomDraw(rQuestion)
      modifies this
      ensures messages == PrependBounded(NewMessage(now, rCustomer, rQuestion), old(messages))
      ensures |messages| <= FeedLimit && !messages[0].replied
      ensures selected == old(selected) && replyText == old(replyText) && showReplyModal == old(showReplyModal)
    {
      messages := PrependBounded(NewMessage(now, rCustomer, rQuestion), messages);
    }

    /** Opens the reply dialog for a message with an empty reply. */
    method HandleReply(message: Message)
      modifies this
      ensures selected == Some(message) && showReplyModal && replyText == ""
      ensures messages == old(messages)
    {
      selected := Some(message);
      showReplyModal := true;
      replyText := "";
    }

    method SetReplyText(text: string)
      modifies this
      ensures replyText == text
      ensures messages == old(messages) && selected == old(selected) && showReplyModal == old(showReplyModal)
    {
      replyText := text;
    }

    /** Sends the typed reply. With no message selected or a blank reply
        nothing happens. Otherwise the messages with the selected id are
        marked replied with the reply and its translation into the
        customer's language, and the dialog is closed and cleared. */
    method SendReply()
      modifies this
      ensures old(selected).None? || IsBlank(old(replyText)) ==> unchanged(this)
      ensures old(selected).Some? && !IsBlank(old(replyText)) ==>
        && messages == MarkReplied(old(messages), old(selected).value.id, old(replyText),
             TranslateToCustomerLanguage(old(replyText), old(selected).value.originalLanguage))
        && selected.None? && replyText == "" && !showReplyModal
      ensures |messages| == old(|messages|)
    {
      if selected.None? || IsBlank(replyText) {
        return;
      }
      var translatedReply := TranslateToCustomerLanguage(replyText, selected.value.originalLanguage);
      messages := MarkReplied(messages, selected.value.id, replyText, translatedReply);
      showReplyModal := false;
      selected := None;
      replyText := "";
    }
  }

  // ---------------------------------------------------------------------
  // Audience opportunities
  // ---------------------------------------------------------------------

  datatype OpportunityKind = View | Feature | Inquiry | Trend

  datatype Opportunity = Opportunity(
    id: string,
    kind: OpportunityKind,
    message: string,
    timestamp: int,
    location: Option<string>,
    audience: Option<string>)

  const Locations := ["Mumbai", "Delhi", "Bangalore", "London", "New York", "Tokyo", "Berlin", "Paris"]
  const Audiences := ["interior designers", "art collectors", "cultural enthusiasts", "textile lovers", "home decorators"]
  const Kinds := [View, Feature, Inquiry, Trend]

  /** `user?.primaryCraft || 'art'`. */
  function CraftOrDefault(primaryCraft: Option<string>): (craft: string)
    ensures primaryCraft.None? || primaryCraft == Some("") ==> craft == "art"
    ensures primaryCraft.Some? && primaryCraft.value != "" ==> craft == primaryCraft.value
  {
    if primaryCraft.Some? && primaryCraft.value != "" then primaryCraft.value else "art"
  }

  predicate AllRandomDraws(r: seq<real>)
  {
    forall i :: 0 <= i < |r| ==> IsRandomDraw(r[i])
  }

  // The texts of the initial feed; `lower` is the craft in lower case.
  function ViewedText(lower: string, audience: string, location: string): string
  {
    "Great news! Your " + lower + " with traditional motifs has been viewed 50 times by "
      + audience + " in " + location + "."
  }

  function FeaturedText(lower: string): string
  {
    "A blog focused on sustainable textiles has featured your profile and highlighted your traditional "
      + lower + " techniques."
  }

  function TrendingText(craft: string): string
  {
    "Trending: " + craft + " pieces with natural dyes are gaining 40% more interest this month among international buyers."
  }

  function InquiriesText(location: string, lower: string): string
  {
    "5 new inquiries from " + location + " customers interested in custom " + lower + " pieces."
  }

  /** The initial feed for a craft at time `now`, built from the draws
      r[0..5] in the order the source makes them: four items with ids "1" to
      "4", aged 2, 6, 12 and 24 hours, newest first. */
  function GenerateOpportunities(primaryCraft: Option<string>, now: int, r: seq<real>): (feed: seq<Opportunity>)
    requires |r| == 5 && AllRandomDraws(r)
    ensures |feed| == 4
    ensures feed[0].id == "1" && feed[1].id == "2" && feed[2].id == "3" && feed[3].id == "4"
    ensures feed[0].kind == View && feed[1].kind == Feature && feed[2].kind == Trend && feed[3].kind == Inquiry
    ensures feed[0].timestamp == now - 2 * HourMillis && feed[1].timestamp == now - 6 * HourMillis
    ensures feed[2].timestamp == now - 12 * HourMillis && feed[3].timestamp == now - 24 * HourMillis
  {
    var craft := CraftOrDefault(primaryCraft);
    var lower := ToLower(craft);
    [
      Opportunity("1", View, ViewedText(lower, Pick(Audiences, r[0]), Pick(Locations, r[1])),
        now - 2 * HourMillis, Some(Pick(Locations, r[2])), Some(Pick(Audiences, r[3]))),
      Opportunity("2", Feature, FeaturedText(lower), now - 6 * HourMillis, None, None),
      Opportunity("3", Trend, TrendingText(craft), now - 12 * HourMillis, None, None),
      Opportunity("4", Inquiry, InquiriesText(Pick(Locations, r[4]), lower), now - 24 * HourMillis, None, None)
    ]
  }

  /** Seen at the moment they are generated, the four items read "2h ago",
      "6h ago", "12h ago" and "1d ago". */
  lemma GeneratedAges(primaryCraft: Option<string>, now: int, r: seq<real>)
    requires |r| == 5 && AllRandomDraws(r)
    ensures var feed := GenerateOpportunities(primaryCraft, now, r);
      && FormatTimeAgo(now, feed[0].timestamp) == "2h ago"
      && FormatTimeAgo(now, feed[1].timestamp) == "6h ago"
      && FormatTimeAgo(now, feed[2].timestamp) == "12h ago"
      && FormatTimeAgo(now, feed[3].timestamp) == "1d ago"
  {
    var feed := GenerateOpportunities(primaryCraft, now, r);
    ElapsedHours(now, 2);
    ElapsedHours(now, 6);
    ElapsedHours(now, 12);
    ElapsedHours(now, 24);
    assert NatToString(12) == "12";
  }

  /** A timestamp between one and 23 whole hours old reads "<k>h ago". */
  lemma HoursLabel(now: int, k: nat)
    requires 1 <= k < 24
    ensures FormatTimeAgo(now, now - k * HourMillis) == NatToString(k) + "h ago"
  {
    ElapsedHours(now, k);
  }

  /** A timestamp at least a day old reads "<d>d ago", d its whole days. */
  lemma DaysLabel(now: int, k: nat)
    requires k >= 24
    ensures FormatTimeAgo(now, now - k * HourMillis) == NatToString(k / 24) + "d ago"
  {
    ElapsedHours(now, k);
  }

  /** A timestamp k hours before `now` is k whole hours old. */
  lemma ElapsedHours(now: int, k: nat)
    ensures (now - (now - k * HourMillis)) / HourMillis == k
  {
    assert now - (now - k * HourMillis) == k * HourMillis;
  }

  /** A new opportunity at time `now` from the draws r[0..7], in the order
      the source makes them: three for the candidate texts, then the kind,
      the text, the location and the audience. */
  function NewOpportunity(primaryCraft: Option<string>, now: nat, r: seq<real>): (o: Opportunity)
    requires |r| == 7 && AllRandomDraws(r)
    ensures o.id == NatToString(now) && o.timestamp == now
    ensures o.kind in Kinds
    ensures o.location.Some? && o.location.value in Locations
    ensures o.audience.Some? && o.audience.value in Audiences
  {
    var lower := ToLower(CraftOrDefault(primaryCraft));
    var newMessages := [
      "Your " + lower + " work is trending in " + Pick(Locations, r[0]) + "!",
      "New interest from " + Pick(Audiences, r[1]) + " in your latest pieces.",
      "A cultural magazine wants to feature your traditional " + lower + " story.",
      "Export inquiry received from " + Pick(Locations, r[2]) + " for bulk orders.",
      "Your work has been shared 25 times on social media this week."
    ];
    Opportunity(NatToString(now), Pick(Kinds, r[3]), Pick(newMessages, r[4]), now,
                Some(Pick(Locations, r[5])), Some(Pick(Audiences, r[6])))
  }

  /** The audience-opportunities panel's feed. */
  class OpportunityFeed {
    var opportunities: seq<Opportunity>

    constructor ()
      ensures opportunities == []
    {
      opportunities := [];
    }

    /** Replaces the feed with the four generated items. */
    method Generate(primaryCraft: Option<string>, now: int, r: seq<real>)
      requires |r| == 5 && AllRandomDraws(r)
      modifies this
      ensures opportunities == GenerateOpportunities(primaryCraft, now, r)
    {
      opportunities := GenerateOpportunities(primaryCraft, now, r);
    }

    /** One firing of the 10-second interval: a new opportunity arrives
        only when the gate draw exceeds 0.7. */
    method Tick(primaryCraft: Option<string>, now: nat, rGate: real, r: seq<real>)
      requires IsRandomDraw(rGate) && |r| == 7 && AllRandomDraws(r)
      modifies this
      ensures rGate > 0.7 ==> opportunities == PrependBounded(NewOpportunity(primaryCraft, now, r), old(opportunities))
      ensures rGate <= 0.7 ==> opportunities == old(opportunities)
    {
      if rGate > 0.7 {
        AddNewOpportunity(primaryCraft, now, r);
      }
    }

    /** A new opportunity goes first and only the five newest are kept. */
    method AddNewOpportunity(primaryCraft: Option<string>, now: nat, r: seq<real>)
      requires |r| == 7 && AllRandomDraws(r)
      modifies this
      ensures opportunities == PrependBounded(NewOpportunity(primaryCraft, now, r), old(opportunities))
      ensures |opportunities| <= FeedLimit && opportunities[0].kind in Kinds
    {
      opportunities := PrependBounded(NewOpportunity(primaryCraft, now, r), opportunities);
    }
  }
}
