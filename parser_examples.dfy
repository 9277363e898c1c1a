/** The parser on the four messages of the repository's own tests
    (tests/test_parse_message.py), with a resolver that answers 123 for every
    handle and message id 1111. Each text is written as the pieces its
    entities cover and the text between them. */
module ParserExamples {
  import opened Wrappers
  import opened PyStr
  import opened Worker

  function Resolve123(handle: string): Option<int> {
    Some(123)
  }

  // ---------------------------------------------------------------------------
  // Slicing texts built from pieces
  // ---------------------------------------------------------------------------

  /** An entity covering the middle piece of a concatenation covers exactly it. */
  lemma PieceAt(a: string, b: string, c: string, e: Entity)
    requires e.offset == |a| && e.length == |b|
    ensures Part(a + b + c, e) == b
  {
    assert (a + b + c)[|a|..|a| + |b|] == b;
  }

  /** The rest of a concatenation after its first two pieces. */
  lemma SuffixAt(a: string, b: string, c: string, e: Entity)
    requires e.offset == |a| && e.length == |b|
    ensures Slice(a + b + c, e.offset + e.length, |a + b + c|) == c
  {
    assert (a + b + c)[|a| + |b|..] == c;
  }

  /** One leading space, and no whitespace at the ends of `w`: stripping gives `w`. */
  lemma StripOneSpace(w: string)
    requires w != [] && !IsSpace(w[0]) && !IsSpace(w[|w| - 1])
    ensures Strip(" " + w) == w
  {
    assert (" " + w)[1..] == w;
    assert LStrip(" " + w) == LStrip(w);
  }

  /** A mention followed by one space and then `w`: what follows it, stripped, is `w`. */
  lemma MentionAt(a: string, b: string, w: string, e: Entity)
    requires e.offset == |a| && e.length == |b|
    requires w != [] && !IsSpace(w[0]) && !IsSpace(w[|w| - 1])
    ensures Part(a + b + (" " + w), e) == b
    ensures TextAfter(a + b + (" " + w), e) == w
  {
    PieceAt(a, b, " " + w, e);
    SuffixAt(a, b, " " + w, e);
    StripOneSpace(w);
  }

  /** A string starts with every prefix it is built from. */
  lemma PrefixOf(p: string, rest: string)
    ensures StartsWith(p + rest, p)
  {
    assert (p + rest)[..|p|] == p;
  }

  lemma Regroup(a: string, b: string, c: string, d: string)
    ensures a + (b + c + d) == (a + b) + c + d
  {
  }

  /** `int()` of the digit strings the examples use. */
  lemma SmallValues()
    ensures DecimalValue("00") == 0 && DecimalValue("01") == 1 && DecimalValue("11") == 11
    ensures DecimalValue("100") == 100 && DecimalValue("1000") == 1000 && DecimalValue("2000") == 2000
  {
    assert "00"[..1] == "0" && "01"[..1] == "0" && "11"[..1] == "1" && "0"[..0] == "" && "1"[..0] == "";
    assert "100"[..2] == "10" && "10"[..1] == "1";
    assert "1000"[..3] == "100";
    assert "2000"[..3] == "200" && "200"[..2] == "20" && "20"[..1] == "2" && "2"[..0] == "";
  }

  // ---------------------------------------------------------------------------
  // The scan of the two reading shapes the tests produce
  // ---------------------------------------------------------------------------

  /** A mention, a matching Bold, a non-matching Bold and perhaps a Blockquote. */
  lemma ScanMentionSumInert(rs: seq<Reading>)
    requires |rs| == 3 || (|rs| == 4 && rs[3].Quote?)
    requires rs[0].Who? && rs[0].who.Ok? && rs[1].Sum? && rs[1].sum.Ok? && rs[2].Inert?
    ensures Scan(rs) == Ok(Fields(Some(rs[0].who.value.0), Some(rs[0].who.value.1),
      Some(rs[1].sum.value.hundredths), Some(rs[1].sum.value.currency),
      if |rs| == 4 then Some(rs[3].quoted) else None, rs[0].announced))
  {
    FirstIs(rs, Identity, 0);
    FirstIs(rs, Amount, 1);
    if |rs| == 4 {
      FirstIs(rs, Comment, 3);
    } else {
      FirstNone(rs, Comment);
    }
  }

  /** A mention, something inert, a second mention and a matching Bold. */
  lemma ScanMentionInertMentionSum(rs: seq<Reading>)
    requires |rs| == 4 && rs[0].Who? && rs[0].who.Ok? && rs[1].Inert? && rs[2].Who?
    requires rs[3].Sum? && rs[3].sum.Ok?
    ensures Scan(rs) == Ok(Fields(Some(rs[0].who.value.0), Some(rs[0].who.value.1),
      Some(rs[3].sum.value.hundredths), Some(rs[3].sum.value.currency), None, rs[0].announced))
  {
    FirstIs(rs, Identity, 0);
    FirstIs(rs, Amount, 3);
    FirstNone(rs, Comment);
  }

  // ---------------------------------------------------------------------------
  // Payments, with and without a comment
  // ---------------------------------------------------------------------------

  const PAY_MENTION: string := "@aaaaaaa"
  const PAY_AMOUNT: string := [Symbol(RUB)] + "2000" + ['.'] + "11"
  const PAY_BOLD: string := "Любая сумма в рублях"
  const PAY_QUOTE: string := "aaaaaaa"
  const PAY_BEFORE: string := PREFIX + " "
  const PAY_IN: string := " на "
  const QUOTE_LEAD: string := "\n\nСообщение:\n"
  const QUOTE_TAIL: string := QUOTE_LEAD + PAY_QUOTE

  /** What follows the mention in a payment text. */
  function PayRest(tail: string): string {
    PAYMENT_WORD + (" " + PAY_AMOUNT + PAY_IN + PAY_BOLD + "." + tail)
  }

  /** "Пользователь @aaaaaaa отправил ₽2000.11 на Любая сумма в рублях." and the tail. */
  function PaymentText(tail: string): string {
    PAY_BEFORE + PAY_MENTION + (" " + PayRest(tail))
  }

  const PAYMENT_ENTITIES: seq<Entity> := [Entity(Mention, 13, 8), Entity(Bold, 31, 8), Entity(Bold, 43, 20)]

  const COMMENTED_ENTITIES: seq<Entity> := PAYMENT_ENTITIES + [Entity(Blockquote, 77, 7)]

  lemma PaymentPrefix(tail: string)
    ensures StartsWith(PaymentText(tail), PREFIX)
  {
    var rest := " " + PAY_MENTION + (" " + PayRest(tail));
    assert PaymentText(tail) == PREFIX + rest;
    assert (PREFIX + rest)[..|PREFIX|] == PREFIX;
  }

  lemma PaymentMention(tail: string)
    requires tail == [] || tail[|tail| - 1] == 'a'
    ensures Part(PaymentText(tail), PAYMENT_ENTITIES[0]) == PAY_MENTION
    ensures TypeAfter(PaymentText(tail), PAYMENT_ENTITIES[0]) == Some(Payment)
  {
    var w := PayRest(tail);
    assert |PAY_BEFORE| == 13 && |PAY_MENTION| == 8;
    assert w[0] == PAYMENT_WORD[0];
    assert w[|w| - 1] == if tail == [] then '.' else 'a';
    MentionAt(PAY_BEFORE, PAY_MENTION, w, PAYMENT_ENTITIES[0]);
    PrefixOf(PAYMENT_WORD, " " + PAY_AMOUNT + PAY_IN + PAY_BOLD + "." + tail);
  }

  lemma PaymentAmountBold(tail: string)
    ensures Part(PaymentText(tail), PAYMENT_ENTITIES[1]) == PAY_AMOUNT
  {
    var head := PAY_BEFORE + PAY_MENTION + " " + PAYMENT_WORD + " ";
    assert |head| == 31 && |PAY_AMOUNT| == 8;
    assert PaymentText(tail) == head + PAY_AMOUNT + (PAY_IN + PAY_BOLD + "." + tail);
    PieceAt(head, PAY_AMOUNT, PAY_IN + PAY_BOLD + "." + tail, PAYMENT_ENTITIES[1]);
  }

  lemma PaymentNameBold(tail: string)
    ensures Part(PaymentText(tail), PAYMENT_ENTITIES[2]) == PAY_BOLD
  {
    var head := PAY_BEFORE + PAY_MENTION + " " + PAYMENT_WORD + " " + PAY_AMOUNT + PAY_IN;
    assert |head| == 43 && |PAY_BOLD| == 20;
    assert PaymentText(tail) == head + PAY_BOLD + ("." + tail);
    PieceAt(head, PAY_BOLD, "." + tail, PAYMENT_ENTITIES[2]);
  }

  lemma PaymentBolds(tail: string)
    ensures Part(PaymentText(tail), PAYMENT_ENTITIES[1]) == PAY_AMOUNT
    ensures Part(PaymentText(tail), PAYMENT_ENTITIES[2]) == PAY_BOLD
  {
    PaymentAmountBold(tail);
    PaymentNameBold(tail);
  }

  lemma PaymentAmounts()
    ensures ParseAmount(PAY_AMOUNT) == Some(Ok(Money(RUB, 200011)))
    ensures ParseAmount(PAY_BOLD) == None
  {
    SmallValues();
    DotMatchesAnyCharacter(RUB, "2000", '.', "11");
    assert PAY_BOLD[0] !in CURRENCIES;
  }

  lemma PaymentReadings(tail: string)
    requires tail == [] || tail[|tail| - 1] == 'a'
    ensures var rs := Readings(PaymentText(tail), PAYMENT_ENTITIES, Resolve123);
      |rs| == 3 && rs[0] == Who(Ok((123, PAY_MENTION)), Some(Payment)) &&
      rs[1] == Sum(Ok(Money(RUB, 200011))) && rs[2] == Inert
  {
    PaymentWho(tail);
    PaymentSums(tail);
  }

  lemma PaymentWho(tail: string)
    requires tail == [] || tail[|tail| - 1] == 'a'
    ensures Read(PaymentText(tail), PAYMENT_ENTITIES[0], Resolve123) == Who(Ok((123, PAY_MENTION)), Some(Payment))
  {
    PaymentMention(tail);
  }

  lemma PaymentSums(tail: string)
    ensures Read(PaymentText(tail), PAYMENT_ENTITIES[1], Resolve123) == Sum(Ok(Money(RUB, 200011)))
    ensures Read(PaymentText(tail), PAYMENT_ENTITIES[2], Resolve123) == Inert
  {
    PaymentBolds(tail);
    PaymentAmounts();
  }

  /** A payment text is the plain announcement followed by its tail. */
  lemma PaymentTextTail(tail: string)
    ensures PaymentText(tail) == PaymentText([]) + tail
  {
    var x := " " + PAY_AMOUNT + PAY_IN + PAY_BOLD + ".";
    assert x + [] == x;
    assert PayRest(tail) == PayRest([]) + tail;
  }

  lemma QuoteReading()
    ensures Part(PaymentText(QUOTE_TAIL), COMMENTED_ENTITIES[3]) == PAY_QUOTE
  {
    var plain := PaymentText([]);
    PaymentTextTail(QUOTE_TAIL);
    assert |plain| == 64 && |QUOTE_LEAD| == 13 && |PAY_QUOTE| == 7;
    assert PaymentText(QUOTE_TAIL) == (plain + QUOTE_LEAD) + PAY_QUOTE + [];
    PieceAt(plain + QUOTE_LEAD, PAY_QUOTE, [], COMMENTED_ENTITIES[3]);
  }

  /** A payment without a quoted message: the comment stays None, and the
      second Bold, which is not an amount, is ignored. */
  lemma PaymentExample()
    ensures ParseSpec(1111, PaymentText([]), Some(PAYMENT_ENTITIES), Resolve123) ==
      Ok(Some(ParsedMessage(123, PAY_MENTION, 200011, RUB, None, Payment, 1111)))
  {
    PaymentPrefix([]);
    PaymentReadings([]);
    ScanMentionSumInert(Readings(PaymentText([]), PAYMENT_ENTITIES, Resolve123));
  }

  /** The readings of the commented payment: those of the plain one, then the quote. */
  lemma CommentedReadings()
    ensures var rs := Readings(PaymentText(QUOTE_TAIL), COMMENTED_ENTITIES, Resolve123);
      |rs| == 4 && rs[0] == Who(Ok((123, PAY_MENTION)), Some(Payment)) &&
      rs[1] == Sum(Ok(Money(RUB, 200011))) && rs[2] == Inert && rs[3] == Quote(PAY_QUOTE)
  {
    var text := PaymentText(QUOTE_TAIL);
    PaymentReadings(QUOTE_TAIL);
    QuoteReading();
    var rs, ps := Readings(text, COMMENTED_ENTITIES, Resolve123), Readings(text, PAYMENT_ENTITIES, Resolve123);
    assert COMMENTED_ENTITIES[0] == PAYMENT_ENTITIES[0] && rs[0] == ps[0];
    assert COMMENTED_ENTITIES[1] == PAYMENT_ENTITIES[1] && rs[1] == ps[1];
    assert COMMENTED_ENTITIES[2] == PAYMENT_ENTITIES[2] && rs[2] == ps[2];
  }

  /** A payment with a quoted message: the Blockquote's text becomes the comment. */
  lemma CommentedExample()
    ensures ParseSpec(1111, PaymentText(QUOTE_TAIL), Some(COMMENTED_ENTITIES), Resolve123) ==
      Ok(Some(ParsedMessage(123, PAY_MENTION, 200011, RUB, Some(PAY_QUOTE), Payment, 1111)))
  {
    PaymentPrefix(QUOTE_TAIL);
    CommentedReadings();
    ScanMentionSumInert(Readings(PaymentText(QUOTE_TAIL), COMMENTED_ENTITIES, Resolve123));
  }

  // ---------------------------------------------------------------------------
  // Subscriptions, in roubles and in dollars
  // ---------------------------------------------------------------------------

  const SUB_CHANNEL: string := "Ttttt TTT"
  const SUB_IN: string := " на канал "
  const SUB_MIDDLE: string := " (@tttttttt) за "

  /** What follows the mention in a subscription text. */
  function SubRest(amount: string): string {
    SUBSCRIPTION_WORDS + (SUB_IN + SUB_CHANNEL + SUB_MIDDLE + amount + ".")
  }

  /** "Пользователь <mention> оформил подписку на канал Ttttt TTT (@tttttttt) за <amount>." */
  function SubscriptionText(mention: string, amount: string): string {
    PREFIX + (" " + mention + (" " + SubRest(amount)))
  }

  const RUB_MENTION: string := "@aaaaaaaaa"
  const RUB_AMOUNT: string := [Symbol(RUB)] + "1000" + ['.'] + "01"
  const USD_MENTION: string := "@aaaaaaaaaaaaaaaaaaa"
  const USD_AMOUNT: string := [Symbol(USD)] + "100" + ['.'] + "00"

  const RUB_ENTITIES: seq<Entity> :=
    [Entity(Mention, 13, 10), Entity(Bold, 50, 9), Entity(Mention, 61, 9), Entity(Bold, 75, 8)]
  const USD_ENTITIES: seq<Entity> :=
    [Entity(Mention, 13, 20), Entity(Bold, 60, 9), Entity(Mention, 71, 9), Entity(Bold, 85, 7)]

  lemma SubscriptionPrefix(mention: string, amount: string)
    ensures StartsWith(SubscriptionText(mention, amount), PREFIX)
  {
    PrefixOf(PREFIX, " " + mention + (" " + SubRest(amount)));
  }

  lemma SubscriptionMention(mention: string, amount: string, e: Entity)
    requires e.offset == 13 && e.length == |mention|
    ensures Part(SubscriptionText(mention, amount), e) == mention
    ensures TypeAfter(SubscriptionText(mention, amount), e) == Some(Subscription)
  {
    var w := SubRest(amount);
    assert |PREFIX + " "| == 13;
    assert w[0] == SUBSCRIPTION_WORDS[0] && w[1] == SUBSCRIPTION_WORDS[1] && w[|w| - 1] == '.';
    Regroup(PREFIX, " ", mention, " " + w);
    MentionAt(PREFIX + " ", mention, w, e);
    PrefixOf(SUBSCRIPTION_WORDS, SUB_IN + SUB_CHANNEL + SUB_MIDDLE + amount + ".");
    assert w[1] != PAYMENT_WORD[1];
  }

  lemma SubscriptionBolds(mention: string, amount: string, channel: Entity, sum: Entity)
    requires channel.offset == 13 + |mention| + 1 + |SUBSCRIPTION_WORDS + SUB_IN| && channel.length == 9
    requires sum.offset == channel.offset + 25 && sum.length == |amount|
    ensures Part(SubscriptionText(mention, amount), channel) == SUB_CHANNEL
    ensures Part(SubscriptionText(mention, amount), sum) == amount
  {
    SubscriptionChannelBold(mention, amount, channel);
    SubscriptionSumBold(mention, amount, sum);
  }

  lemma SubscriptionChannelBold(mention: string, amount: string, channel: Entity)
    requires channel.offset == 13 + |mention| + 1 + |SUBSCRIPTION_WORDS + SUB_IN| && channel.length == 9
    ensures Part(SubscriptionText(mention, amount), channel) == SUB_CHANNEL
  {
    var head := PREFIX + " " + mention + " " + SUBSCRIPTION_WORDS + SUB_IN;
    assert |head| == channel.offset;
    assert SubscriptionText(mention, amount) == head + SUB_CHANNEL + (SUB_MIDDLE + amount + ".");
    PieceAt(head, SUB_CHANNEL, SUB_MIDDLE + amount + ".", channel);
  }

  lemma SubscriptionSumBold(mention: string, amount: string, sum: Entity)
    requires sum.offset == 13 + |mention| + 1 + |SUBSCRIPTION_WORDS + SUB_IN| + 25 && sum.length == |amount|
    ensures Part(SubscriptionText(mention, amount), sum) == amount
  {
    var head := PREFIX + " " + mention + " " + SUBSCRIPTION_WORDS + SUB_IN + SUB_CHANNEL + SUB_MIDDLE;
    assert |head| == sum.offset;
    assert SubscriptionText(mention, amount) == head + amount + ".";
    PieceAt(head, amount, ".", sum);
  }

  lemma RubAmount()
    ensures ParseAmount(RUB_AMOUNT) == Some(Ok(Money(RUB, 100001)))
  {
    SmallValues();
    DotMatchesAnyCharacter(RUB, "1000", '.', "01");
  }

  lemma UsdAmount()
    ensures ParseAmount(USD_AMOUNT) == Some(Ok(Money(USD, 10000)))
  {
    SmallValues();
    DotMatchesAnyCharacter(USD, "100", '.', "00");
  }

  lemma SubscriptionAmounts()
    ensures ParseAmount(RUB_AMOUNT) == Some(Ok(Money(RUB, 100001)))
    ensures ParseAmount(USD_AMOUNT) == Some(Ok(Money(USD, 10000)))
    ensures ParseAmount(SUB_CHANNEL) == None
  {
    RubAmount();
    UsdAmount();
    assert SUB_CHANNEL[0] !in CURRENCIES;
  }

  lemma RubReadings()
    ensures var rs := Readings(SubscriptionText(RUB_MENTION, RUB_AMOUNT), RUB_ENTITIES, Resolve123);
      |rs| == 4 && rs[0] == Who(Ok((123, RUB_MENTION)), Some(Subscription)) &&
      rs[1] == Inert && rs[2].Who? && rs[3] == Sum(Ok(Money(RUB, 100001)))
  {
    SubscriptionMention(RUB_MENTION, RUB_AMOUNT, RUB_ENTITIES[0]);
    SubscriptionBolds(RUB_MENTION, RUB_AMOUNT, RUB_ENTITIES[1], RUB_ENTITIES[3]);
    SubscriptionAmounts();
  }

  lemma UsdReadings()
    ensures var rs := Readings(SubscriptionText(USD_MENTION, USD_AMOUNT), USD_ENTITIES, Resolve123);
      |rs| == 4 && rs[0] == Who(Ok((123, USD_MENTION)), Some(Subscription)) &&
      rs[1] == Inert && rs[2].Who? && rs[3] == Sum(Ok(Money(USD, 10000)))
  {
    SubscriptionMention(USD_MENTION, USD_AMOUNT, USD_ENTITIES[0]);
    SubscriptionBolds(USD_MENTION, USD_AMOUNT, USD_ENTITIES[1], USD_ENTITIES[3]);
    SubscriptionAmounts();
  }

  /** A Bold that is not an amount ("Ttttt TTT") does not block the later
      "₽1000.01", the second mention is ignored, and the text after the first
      mention announces a subscription. */
  lemma RubSubscriptionExample()
    ensures ParseSpec(1111, SubscriptionText(RUB_MENTION, RUB_AMOUNT), Some(RUB_ENTITIES), Resolve123) ==
      Ok(Some(ParsedMessage(123, RUB_MENTION, 100001, RUB, None, Subscription, 1111)))
  {
    SubscriptionPrefix(RUB_MENTION, RUB_AMOUNT);
    RubReadings();
    ScanMentionInertMentionSum(Readings(SubscriptionText(RUB_MENTION, RUB_AMOUNT), RUB_ENTITIES, Resolve123));
  }

  /** The same shape in dollars, with a longer handle. */
  lemma UsdSubscriptionExample()
    ensures ParseSpec(1111, SubscriptionText(USD_MENTION, USD_AMOUNT), Some(USD_ENTITIES), Resolve123) ==
      Ok(Some(ParsedMessage(123, USD_MENTION, 10000, USD, None, Subscription, 1111)))
  {
    SubscriptionPrefix(USD_MENTION, USD_AMOUNT);
    UsdReadings();
    ScanMentionInertMentionSum(Readings(SubscriptionText(USD_MENTION, USD_AMOUNT), USD_ENTITIES, Resolve123));
  }
}
