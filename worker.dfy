/** The message model and parser of app/actions/worker.py: the currency table
    and amount pattern, `MessageType`, `ParsedMessage.to_dict`, and
    `parse_message_russian`, both as a declarative specification (which
    annotation supplies which field) and as the source's single pass. */
module Worker {
  import opened Wrappers
  import opened PyStr
  import opened Utils

  // ---------------------------------------------------------------------------
  // Currencies, message types, parsed records
  // ---------------------------------------------------------------------------

  datatype Currency = RUB | USD | EUR {
    /** The code stored in `ParsedMessage.currency`. */
    function Code(): string {
      match this
      case RUB => "RUB"
      case USD => "USD"
      case EUR => "EUR"
    }
  }

  /** `CURRENCIES`: symbol to currency. */
  const CURRENCIES: map<char, Currency> := map['₽' := RUB, '$' := USD, '€' := EUR]

  /** The symbol `CURRENCIES` maps to a currency. */
  function Symbol(c: Currency): (s: char)
    ensures s in CURRENCIES && CURRENCIES[s] == c
  {
    match c
    case RUB => '₽'
    case USD => '$'
    case EUR => '€'
  }

  /** `MessageType`, an `Enum` whose values are its names. */
  datatype MessageType = Payment | Subscription {
    function Value(): string {
      match this
      case Payment => "payment"
      case Subscription => "subscription"
    }
  }

  /** `ParsedMessage`; `amount` is kept exactly, in hundredths. */
  datatype ParsedMessage = ParsedMessage(
    userId: int,
    userName: string,
    amount: int,
    currency: Currency,
    comment: Option<string>,
    messageType: MessageType,
    messageId: int)

  /** `ParsedMessage.to_dict()`: the fields under their Python names, the
      message type still an enum member. */
  function ToDict(p: ParsedMessage): PyValue {
    PyDict([
      Entry(PyStr("user_id"), PyInt(p.userId)),
      Entry(PyStr("user_name"), PyStr(p.userName)),
      Entry(PyStr("amount"), PyMoney(p.amount)),
      Entry(PyStr("currency"), PyStr(p.currency.Code())),
      Entry(PyStr("comment"), if p.comment.Some? then PyStr(p.comment.value) else PyNone),
      Entry(PyStr("message_type"), PyEnum(p.messageType.Value(), PyStr(p.messageType.Value()))),
      Entry(PyStr("message_id"), PyInt(p.messageId))
    ])
  }

  /** What the webhook body carries under "parsed". */
  function ParsedJson(p: ParsedMessage): seq<Entry> {
    [
      Entry(PyStr("user_id"), PyInt(p.userId)),
      Entry(PyStr("user_name"), PyStr(p.userName)),
      Entry(PyStr("amount"), PyMoney(p.amount)),
      Entry(PyStr("currency"), PyStr(p.currency.Code())),
      Entry(PyStr("comment"), if p.comment.Some? then PyStr(p.comment.value) else PyNone),
      Entry(PyStr("message_type"), PyStr(p.messageType.Value())),
      Entry(PyStr("message_id"), PyInt(p.messageId))
    ]
  }

  /** Entry by entry, `jsonify` turns `to_dict()` into the webhook fields:
      only the enum member changes, into its value. */
  lemma JsonifyToDictEntries(p: ParsedMessage)
    ensures !JsonifyRaises(ToDict(p))
    ensures Jsonify(ToDict(p)) == PyDict(DictBuild(ParsedJson(p)))
  {
    var es := ToDict(p).entries;
    var items := seq(|es|, i requires 0 <= i < |es| => Entry(Jsonify(es[i].key), Jsonify(es[i].value)));
    forall i | 0 <= i < |es|
      ensures items[i] == ParsedJson(p)[i]
      ensures !(JsonifyRaises(es[i].key) || JsonifyRaises(es[i].value) || !Hashable(Jsonify(es[i].key)))
    {
      ToDictEntryConverts(p, i);
    }
    assert items == ParsedJson(p);
  }

  /** One entry of `to_dict()`: its key is a plain string, and its value
      converts to the webhook field without raising. */
  lemma ToDictEntryConverts(p: ParsedMessage, i: nat)
    requires i < 7
    ensures var e := ToDict(p).entries[i];
      !JsonifyRaises(e.key) && !JsonifyRaises(e.value) && Hashable(Jsonify(e.key)) &&
      Entry(Jsonify(e.key), Jsonify(e.value)) == ParsedJson(p)[i]
  {
    var e := ToDict(p).entries[i];
    assert e.key.PyStr? && Jsonify(e.key) == e.key;
    if i == 5 {
      assert Jsonify(e.value) == PyStr(p.messageType.Value());
    } else {
      assert !e.value.PyEnum? && !e.value.PyDict? && !e.value.PyList?;
    }
  }

  /** The webhook fields form a JSON dict keyed by the seven field names, each once. */
  lemma ParsedJsonShape(p: ParsedMessage)
    ensures IsJson(PyDict(ParsedJson(p)))
    ensures |ParsedJson(p)| == 7
    ensures KeysOf(ParsedJson(p)) == {PyStr("user_id"), PyStr("user_name"), PyStr("amount"),
      PyStr("currency"), PyStr("comment"), PyStr("message_type"), PyStr("message_id")}
    ensures ParsedJson(p)[5].value == PyStr(if p.messageType.Payment? then "payment" else "subscription")
  {
    var d := ParsedJson(p);
    ParsedJsonKeys(p);
    assert forall i | 0 <= i < |d| :: IsJsonKey(d[i].key) && IsJson(d[i].value);
  }

  /** The seven field names are the keys of the webhook fields, each once. */
  lemma ParsedJsonKeys(p: ParsedMessage)
    ensures DistinctKeys(ParsedJson(p))
    ensures KeysOf(ParsedJson(p)) == {PyStr("user_id"), PyStr("user_name"), PyStr("amount"),
      PyStr("currency"), PyStr("comment"), PyStr("message_type"), PyStr("message_id")}
  {
    var d := ParsedJson(p);
    assert d[0].key == PyStr("user_id") && d[1].key == PyStr("user_name");
    assert d[2].key == PyStr("amount") && d[3].key == PyStr("currency");
    assert d[4].key == PyStr("comment") && d[5].key == PyStr("message_type");
    assert d[6].key == PyStr("message_id");
  }

  /** `jsonify(parsed.to_dict())` never raises and gives the webhook fields:
      a JSON dict with the seven field names as keys, each once, the message
      type as "payment" or "subscription", and the other fields unchanged. */
  lemma JsonifyToDict(p: ParsedMessage)
    ensures !JsonifyRaises(ToDict(p))
    ensures Jsonify(ToDict(p)) == PyDict(ParsedJson(p))
    ensures IsJson(Jsonify(ToDict(p)))
  {
    JsonifyToDictEntries(p);
    ParsedJsonShape(p);
    DictBuildDistinct(ParsedJson(p));
  }

  // ---------------------------------------------------------------------------
  // The amount pattern: AMOUNT_RE = ([₽$€])([0-9,]+).([0-9]{2})
  // ---------------------------------------------------------------------------

  predicate IsRunChar(c: char) {
    IsDigit(c) || c == ','
  }

  predicate IsRun(s: string) {
    forall i :: 0 <= i < |s| ==> IsRunChar(s[i])
  }

  /** The three groups of a match. */
  datatype AmountMatch = AmountMatch(symbol: char, run: string, decimals: string)

  /** One way `AMOUNT_RE.fullmatch(s)` can match: a currency symbol, a
      non-empty run of digits and commas, any one character but a newline
      (the `.` is not escaped), and exactly two digits. */
  predicate MatchesAs(s: string, m: AmountMatch, any: char) {
    m.symbol in CURRENCIES && |m.run| >= 1 && IsRun(m.run) && any != '\n' &&
    |m.decimals| == 2 && AllDigits(m.decimals) &&
    s == [m.symbol] + m.run + [any] + m.decimals
  }

  predicate WellFormed(m: AmountMatch) {
    m.symbol in CURRENCIES && |m.run| >= 1 && IsRun(m.run) && |m.decimals| == 2 && AllDigits(m.decimals)
  }

  /** `AMOUNT_RE.fullmatch(s)` and its groups. The last three positions are
      fixed, so a match is found by looking at them. */
  function FullMatch(s: string): Option<AmountMatch> {
    if |s| >= 5 && s[0] in CURRENCIES && IsRun(s[1..|s| - 3]) && s[|s| - 3] != '\n' &&
       IsDigit(s[|s| - 2]) && IsDigit(s[|s| - 1])
    then Some(AmountMatch(s[0], s[1..|s| - 3], s[|s| - 2..]))
    else None
  }

  /** What `FullMatch` finds is a match of the pattern, with well-formed groups. */
  lemma FullMatchSound(s: string)
    ensures FullMatch(s).Some? ==>
      |s| >= 5 && MatchesAs(s, FullMatch(s).value, s[|s| - 3]) && WellFormed(FullMatch(s).value)
  {
    if FullMatch(s).Some? {
      var m := FullMatch(s).value;
      assert s == [m.symbol] + m.run + [s[|s| - 3]] + m.decimals;
    }
  }

  /** The decomposition is unique: whenever the pattern matches in some way,
      `FullMatch` finds it and reports exactly those groups. */
  lemma FullMatchComplete(s: string, m: AmountMatch, any: char)
    requires MatchesAs(s, m, any)
    ensures FullMatch(s) == Some(m)
  {
    var n := |s|;
    assert s[0] == m.symbol;
    assert s[1..n - 3] == m.run;
    assert s[n - 3] == any;
    assert s[n - 2..] == m.decimals;
  }

  datatype ParseError =
    | ResolveFailed(handle: string)   // the client's entity lookup raised
    | IntValueError(literal: string)  // `int("")`: the run held only commas

  /** An amount: currency and hundredths. */
  datatype Money = Money(currency: Currency, hundredths: nat)

  /** `amount_str.replace(",", "")` */
  function RemoveCommas(s: string): string {
    if s == [] then []
    else (if s[0] == ',' then [] else [s[0]]) + RemoveCommas(s[1..])
  }

  /** Dropping the commas of a run leaves only its digits. */
  lemma {:induction false} RemoveCommasOfRun(s: string)
    ensures IsRun(s) ==> AllDigits(RemoveCommas(s))
    ensures |RemoveCommas(s)| <= |s|
  {
    if s != [] {
      RemoveCommasOfRun(s[1..]);
    }
  }

  /** The conversion at worker.py:217-218 in exact hundredths:
      `int(run without commas) * 100 + int(decimals)`; `int("")` raises. */
  function AmountOf(m: AmountMatch): (r: Result<Money, ParseError>)
    requires WellFormed(m)
    ensures r.Err? <==> RemoveCommas(m.run) == []
    ensures r.Ok? ==> r.value.currency == CURRENCIES[m.symbol]
    ensures r.Ok? ==> r.value.hundredths % 100 == DecimalValue(m.decimals)
  {
    RemoveCommasOfRun(m.run);
    var digits := RemoveCommas(m.run);
    if digits == [] then Err(IntValueError(digits))
    else Ok(Money(CURRENCIES[m.symbol], DecimalValue(digits) * 100 + DecimalValue(m.decimals)))
  }

  /** The amount a Bold text gives: None when the pattern does not match. */
  function ParseAmount(s: string): Option<Result<Money, ParseError>> {
    match FullMatch(s)
    case None => None
    case Some(m) => FullMatchSound(s); Some(AmountOf(m))
  }

  /** The canonical text of an amount, as in "₽2000.11". */
  function AmountText(m: Money): string {
    [Symbol(m.currency)] + Digits(m.hundredths / 100) + "." + Pad(m.hundredths % 100, 2)
  }

  /** Every amount written canonically is read back as itself. */
  lemma AmountTextRoundTrip(m: Money)
    ensures ParseAmount(AmountText(m)) == Some(Ok(m))
  {
    var whole, cents := m.hundredths / 100, m.hundredths % 100;
    var g := AmountMatch(Symbol(m.currency), Digits(whole), Pad(cents, 2));
    PadRoundTrip(cents, 2);
    DigitsRoundTrip(whole);
    assert IsRun(g.run);
    assert MatchesAs(AmountText(m), g, '.');
    FullMatchComplete(AmountText(m), g, '.');
    RemoveCommasOfDigits(g.run);
  }

  /** Every text "<symbol><run><any character but newline><two digits>" is
      read through the conversion of its groups. */
  lemma ParseAmountOfGroups(s: string, c: Currency, run: string, sep: char, cents: string)
    requires run != [] && IsRun(run) && sep != '\n' && |cents| == 2 && AllDigits(cents)
    requires s == [Symbol(c)] + run + [sep] + cents
    ensures WellFormed(AmountMatch(Symbol(c), run, cents))
    ensures ParseAmount(s) == Some(AmountOf(AmountMatch(Symbol(c), run, cents)))
  {
    FullMatchComplete(s, AmountMatch(Symbol(c), run, cents), sep);
  }

  /** The unescaped dot of the pattern accepts any character but a newline
      between the run and the decimals: "₽2000.11" reads as 200011 hundredths,
      and so does "₽2000x11"; "₽100000" reads as "100" with "00", 100.00. */
  lemma DotMatchesAnyCharacter(c: Currency, run: string, sep: char, cents: string)
    requires run != [] && AllDigits(run) && sep != '\n' && |cents| == 2 && AllDigits(cents)
    ensures ParseAmount([Symbol(c)] + run + [sep] + cents) ==
      Some(Ok(Money(c, DecimalValue(run) * 100 + DecimalValue(cents))))
  {
    assert IsRun(run);
    ParseAmountOfGroups([Symbol(c)] + run + [sep] + cents, c, run, sep, cents);
    RemoveCommasOfDigits(run);
  }

  /** A comma may stand anywhere in the run and is dropped: "₽2000,11.11"
      reads as 20001111 hundredths, not as a rejected amount. */
  lemma CommaInsideRun(c: Currency, a: string, b: string, sep: char, cents: string)
    requires a + b != [] && AllDigits(a) && AllDigits(b)
    requires sep != '\n' && |cents| == 2 && AllDigits(cents)
    ensures ParseAmount([Symbol(c)] + (a + [','] + b) + [sep] + cents) ==
      Some(Ok(Money(c, DecimalValue(a + b) * 100 + DecimalValue(cents))))
  {
    InnerComma(a, b);
    ParseAmountOfGroups([Symbol(c)] + (a + [','] + b) + [sep] + cents, c, a + [','] + b, sep, cents);
  }

  /** Digits, a comma, digits: a run whose commas drop to leave the digits. */
  lemma InnerComma(a: string, b: string)
    requires AllDigits(a) && AllDigits(b)
    ensures IsRun(a + [','] + b) && AllDigits(a + b)
    ensures RemoveCommas(a + [','] + b) == a + b
  {
    InnerCommaRun(a, b);
    InnerCommaDropped(a, b);
  }

  lemma InnerCommaRun(a: string, b: string)
    requires AllDigits(a) && AllDigits(b)
    ensures IsRun(a + [','] + b) && AllDigits(a + b)
  {
    var run := a + [','] + b;
    forall i | 0 <= i < |run| ensures IsRunChar(run[i]) {
      if i < |a| { assert run[i] == a[i]; }
      else if i > |a| { assert run[i] == b[i - |a| - 1]; }
    }
    forall i | 0 <= i < |a + b| ensures IsDigit((a + b)[i]) {
      if i >= |a| { assert (a + b)[i] == b[i - |a|]; }
    }
  }

  lemma InnerCommaDropped(a: string, b: string)
    requires AllDigits(a) && AllDigits(b)
    ensures RemoveCommas(a + [','] + b) == a + b
  {
    RemoveCommasConcat(a, [',']);
    assert RemoveCommas([',']) == [] by {
      assert [','][1..] == [];
    }
    RemoveCommasOfDigits(a);
    assert RemoveCommas(a + [',']) == a by {
      assert a + [] == a;
    }
    RemoveCommasConcat(a + [','], b);
    RemoveCommasOfDigits(b);
  }

  /** A run of commas alone matches the pattern, and then `int("")` raises. */
  lemma CommasOnlyRaise(c: Currency, run: string, sep: char, cents: string)
    requires run != [] && (forall i :: 0 <= i < |run| ==> run[i] == ',')
    requires sep != '\n' && |cents| == 2 && AllDigits(cents)
    ensures ParseAmount([Symbol(c)] + run + [sep] + cents) == Some(Err(IntValueError("")))
  {
    assert IsRun(run);
    ParseAmountOfGroups([Symbol(c)] + run + [sep] + cents, c, run, sep, cents);
    RemoveCommasOfCommas(run);
  }

  lemma {:induction false} RemoveCommasOfCommas(run: string)
    requires forall i :: 0 <= i < |run| ==> run[i] == ','
    ensures RemoveCommas(run) == []
  {
    if run != [] {
      RemoveCommasOfCommas(run[1..]);
    }
  }

  /** Text that does not start with a currency symbol is not an amount. */
  lemma NonAmountDoesNotMatch(s: string)
    requires s == [] || s[0] !in CURRENCIES
    ensures ParseAmount(s) == None
  {
  }

  /** Dropping commas works piece by piece. */
  lemma {:induction false} RemoveCommasConcat(a: string, b: string)
    ensures RemoveCommas(a + b) == RemoveCommas(a) + RemoveCommas(b)
  {
    if a != [] {
      assert (a + b)[1..] == a[1..] + b;
      RemoveCommasConcat(a[1..], b);
    } else {
      assert a + b == b;
    }
  }

  lemma {:induction false} RemoveCommasOfDigits(s: string)
    requires AllDigits(s)
    ensures RemoveCommas(s) == s
  {
    if s != [] {
      RemoveCommasOfDigits(s[1..]);
      assert [s[0]] + s[1..] == s;
    }
  }

  // ---------------------------------------------------------------------------
  // Message entities and the parser
  // ---------------------------------------------------------------------------

  /** The entity classes the parser looks at; every other class is inert. */
  datatype EntityKind =
    | MentionName(userId: int)   // MessageEntityMentionName
    | Mention                    // MessageEntityMention (an @handle)
    | Bold                       // MessageEntityBold
    | Blockquote                 // MessageEntityBlockquote
    | OtherKind

  datatype Entity = Entity(kind: EntityKind, offset: int, length: int)

  const PREFIX: string := "Пользователь"
  const PAYMENT_WORD: string := "отправил"
  const SUBSCRIPTION_WORDS: string := "оформил подписку"

  /** `message[entity.offset : entity.offset + entity.length]` */
  function Part(text: string, e: Entity): string {
    Slice(text, e.offset, e.offset + e.length)
  }

  /** `message[entity.offset + entity.length :].strip()` */
  function TextAfter(text: string, e: Entity): string {
    Strip(Slice(text, e.offset + e.length, |text|))
  }

  /** The message type the text after a mention announces, if any. */
  function TypeAfter(text: string, e: Entity): Option<MessageType> {
    var rest := TextAfter(text, e);
    if StartsWith(rest, PAYMENT_WORD) then Some(Payment)
    else if StartsWith(rest, SUBSCRIPTION_WORDS) then Some(Subscription)
    else None
  }

  /** Who a mention names: a MentionName carries the id, a Mention's covered
      text is resolved by the client, which may raise. */
  function Identify(text: string, e: Entity, resolve: string -> Option<int>): (r: Result<(int, string), ParseError>)
    requires e.kind.MentionName? || e.kind.Mention?
    ensures r.Ok? ==> r.value.1 == Part(text, e)
    ensures r.Err? <==> e.kind.Mention? && resolve(Part(text, e)).None?
  {
    var name := Part(text, e);
    match e.kind
    case MentionName(uid) => Ok((uid, name))
    case Mention =>
      match resolve(name)
      case None => Err(ResolveFailed(name))
      case Some(uid) => Ok((uid, name))
  }

  /** What one entity can contribute to the parsed record, before the pass
      decides whether it is the first of its kind. */
  datatype Reading =
    | Who(who: Result<(int, string), ParseError>, announced: Option<MessageType>)  // a mention
    | Quote(quoted: string)                                                          // a Blockquote
    | Sum(sum: Result<Money, ParseError>)                                            // a Bold matching the pattern
    | Inert                                                                          // anything else

  function Read(text: string, e: Entity, resolve: string -> Option<int>): (r: Reading)
    ensures r.Who? <==> e.kind.MentionName? || e.kind.Mention?
    ensures r.Quote? <==> e.kind.Blockquote?
    ensures r.Sum? <==> e.kind.Bold? && FullMatch(Part(text, e)).Some?
    ensures r.Quote? ==> r.quoted == Part(text, e)
    ensures r.Sum? ==> Some(r.sum) == ParseAmount(Part(text, e))
  {
    match e.kind
    case MentionName(_) => Who(Identify(text, e, resolve), TypeAfter(text, e))
    case Mention => Who(Identify(text, e, resolve), TypeAfter(text, e))
    case Blockquote => Quote(Part(text, e))
    case Bold =>
      (match ParseAmount(Part(text, e))
       case None => Inert
       case Some(m) => Sum(m))
    case OtherKind => Inert
  }

  /** The reading of every entity, in list order. */
  function Readings(text: string, es: seq<Entity>, resolve: string -> Option<int>): (rs: seq<Reading>)
    ensures |rs| == |es|
    ensures forall i :: 0 <= i < |es| ==> rs[i] == Read(text, es[i], resolve)
  {
    seq(|es|, i requires 0 <= i < |es| => Read(text, es[i], resolve))
  }

  /** The three groups of fields that the first suitable entity fills. */
  datatype Purpose = Identity | Comment | Amount

  predicate Serves(r: Reading, p: Purpose) {
    match p
    case Identity => r.Who?
    case Comment => r.Quote?
    case Amount => r.Sum?
  }

  /** The position of the first reading, in list order, that serves `p`. */
  function First(rs: seq<Reading>, p: Purpose): (r: Option<nat>)
    ensures r.Some? ==> r.value < |rs| && Serves(rs[r.value], p)
    ensures r.Some? ==> forall j :: 0 <= j < r.value ==> !Serves(rs[j], p)
    ensures r.None? ==> forall j :: 0 <= j < |rs| ==> !Serves(rs[j], p)
  {
    if rs == [] then None
    else if Serves(rs[0], p) then Some(0)
    else match First(rs[1..], p)
      case None => None
      case Some(k) => Some(k + 1)
  }

  /** The six accumulators of the pass: user id, user name, amount, currency,
      comment and message type, each None until it is filled. */
  datatype Fields = Fields(
    userId: Option<int>,
    userName: Option<string>,
    amount: Option<nat>,
    currency: Option<Currency>,
    comment: Option<string>,
    messageType: Option<MessageType>)

  const NoFields := Fields(None, None, None, None, None, None)

  /** Who the first mention names (or the exception resolving it raises). */
  function IdentityOf(rs: seq<Reading>): Option<Result<(int, string), ParseError>> {
    match First(rs, Identity)
    case None => None
    case Some(j) => Some(rs[j].who)
  }

  /** The message type announced right after the first mention. */
  function TypeOf(rs: seq<Reading>): Option<MessageType> {
    match First(rs, Identity)
    case None => None
    case Some(j) => rs[j].announced
  }

  /** The text of the first Blockquote, verbatim. */
  function CommentOf(rs: seq<Reading>): Option<string> {
    match First(rs, Comment)
    case None => None
    case Some(j) => Some(rs[j].quoted)
  }

  /** The amount of the first Bold that matches the pattern (or its exception). */
  function MoneyOf(rs: seq<Reading>): Option<Result<Money, ParseError>> {
    match First(rs, Amount)
    case None => None
    case Some(j) => Some(rs[j].sum)
  }

  /** The exception the pass raises: at the first mention when resolving it
      fails, at the first matching Bold when its run holds only commas, and
      when both fail, at whichever of the two comes first in the list. */
  function ScanError(rs: seq<Reading>): (r: Option<ParseError>)
    ensures r.None? <==>
      (IdentityOf(rs).Some? ==> IdentityOf(rs).value.Ok?) && (MoneyOf(rs).Some? ==> MoneyOf(rs).value.Ok?)
  {
    var mi, ai := First(rs, Identity), First(rs, Amount);
    var who, money := IdentityOf(rs), MoneyOf(rs);
    var whoFails := who.Some? && who.value.Err?;
    var moneyFails := money.Some? && money.value.Err?;
    if whoFails && !(moneyFails && ai.value < mi.value) then Some(who.value.error)
    else if moneyFails then Some(money.value.error)
    else None
  }

  /** The accumulators after a pass, stated by which entity supplies what: the
      first mention gives user id, user name and (through the text after it)
      the message type, the first matching Bold the amount and currency, the
      first Blockquote the comment. */
  function Scan(rs: seq<Reading>): Result<Fields, ParseError> {
    var who, money := IdentityOf(rs), MoneyOf(rs);
    match ScanError(rs)
    case Some(err) => Err(err)
    case None => Ok(Fields(
      if who.Some? then Some(who.value.value.0) else None,
      if who.Some? then Some(who.value.value.1) else None,
      if money.Some? then Some(money.value.value.hundredths) else None,
      if money.Some? then Some(money.value.value.currency) else None,
      CommentOf(rs),
      TypeOf(rs)))
  }

  /** The closing check: a record only when every field but the comment is set. */
  function Complete(f: Fields, messageId: int): (r: Option<ParsedMessage>)
    ensures r.Some? <==>
      f.userId.Some? && f.userName.Some? && f.amount.Some? && f.currency.Some? && f.messageType.Some?
    ensures r.Some? ==> r.value == ParsedMessage(f.userId.value, f.userName.value, f.amount.value,
      f.currency.value, f.comment, f.messageType.value, messageId)
  {
    if f.userId.None? || f.userName.None? || f.amount.None? || f.currency.None? || f.messageType.None? then None
    else Some(ParsedMessage(f.userId.value, f.userName.value, f.amount.value, f.currency.value,
                            f.comment, f.messageType.value, messageId))
  }

  /** What `parse_message_russian` returns: no match without entities or
      without the leading "Пользователь", else the scan's exception or the
      closing check of its accumulators. */
  function ParseSpec(messageId: int, text: string, entities: Option<seq<Entity>>,
                     resolve: string -> Option<int>): Result<Option<ParsedMessage>, ParseError>
  {
    if entities.None? || entities.value == [] || !StartsWith(text, PREFIX) then Ok(None)
    else match Scan(Readings(text, entities.value, resolve))
      case Err(e) => Err(e)
      case Ok(f) => Ok(Complete(f, messageId))
  }

  // ---------------------------------------------------------------------------
  // The pass, entity by entity, and its agreement with the specification
  // ---------------------------------------------------------------------------

  /** What one entity does to the accumulators: it fills its group of fields
      when that group is still empty, and an exception stops the pass. */
  function Absorb(f: Fields, r: Reading): Result<Fields, ParseError> {
    match r
    case Who(who, t) =>
      if f.userId.Some? then Ok(f)
      else if who.Err? then Err(who.error)
      else Ok(f.(userId := Some(who.value.0), userName := Some(who.value.1),
                 messageType := if t.Some? then t else f.messageType))
    case Quote(q) =>
      if f.comment.Some? then Ok(f) else Ok(f.(comment := Some(q)))
    case Sum(m) =>
      if f.amount.Some? then Ok(f)
      else if m.Err? then Err(m.error)
      else Ok(f.(amount := Some(m.value.hundredths), currency := Some(m.value.currency)))
    case Inert => Ok(f)
  }

  /** The pass over the readings, one after the other, stopping at an exception. */
  function Pass(rs: seq<Reading>): Result<Fields, ParseError>
    decreases |rs|
  {
    if rs == [] then Ok(NoFields)
    else
      var s := Pass(rs[..|rs| - 1]);
      if s.Err? then s else Absorb(s.value, rs[|rs| - 1])
  }

  /** The first serving reading is determined by the facts that it serves `p`
      and that none before it does. */
  lemma FirstIs(rs: seq<Reading>, p: Purpose, j: nat)
    requires j < |rs| && Serves(rs[j], p)
    requires forall k :: 0 <= k < j ==> !Serves(rs[k], p)
    ensures First(rs, p) == Some(j)
  {
  }

  /** No reading serves `p` exactly when there is no first one. */
  lemma FirstNone(rs: seq<Reading>, p: Purpose)
    requires forall k :: 0 <= k < |rs| ==> !Serves(rs[k], p)
    ensures First(rs, p) == None
  {
  }

  /** How the first serving reading changes when one reading is appended. */
  lemma FirstSnoc(rs: seq<Reading>, p: Purpose)
    requires rs != []
    ensures var init := rs[..|rs| - 1];
      First(rs, p) ==
        if First(init, p).Some? then First(init, p)
        else if Serves(rs[|rs| - 1], p) then Some(|rs| - 1)
        else None
  {
    var init := rs[..|rs| - 1];
    assert forall k :: 0 <= k < |init| ==> rs[k] == init[k];
    var f := First(init, p);
    if f.Some? {
      FirstIs(rs, p, f.value);
    } else if Serves(rs[|rs| - 1], p) {
      FirstIs(rs, p, |rs| - 1);
    } else {
      FirstNone(rs, p);
    }
  }

  /** While the pass has not raised, the identity fields and the message type
      are those of the first mention. */
  lemma {:induction false} PassIdentity(rs: seq<Reading>)
    ensures Pass(rs).Ok? ==>
      var f := Pass(rs).value;
      var who := IdentityOf(rs);
      (f.userId.Some? <==> who.Some?) && (f.userName.Some? <==> who.Some?) &&
      (who.Some? ==> who.value == Ok((f.userId.value, f.userName.value))) &&
      f.messageType == TypeOf(rs)
    decreases |rs|
  {
    if rs != [] {
      var init := rs[..|rs| - 1];
      PassIdentity(init);
      FirstSnoc(rs, Identity);
      var m := First(init, Identity);
      if m.Some? {
        assert rs[m.value] == init[m.value];
      }
    }
  }

  /** While the pass has not raised, the comment is that of the first Blockquote. */
  lemma {:induction false} PassComment(rs: seq<Reading>)
    ensures Pass(rs).Ok? ==> Pass(rs).value.comment == CommentOf(rs)
    decreases |rs|
  {
    if rs != [] {
      var init := rs[..|rs| - 1];
      PassComment(init);
      FirstSnoc(rs, Comment);
      var c := First(init, Comment);
      if c.Some? {
        assert rs[c.value] == init[c.value];
      }
    }
  }

  /** While the pass has not raised, amount and currency are those of the
      first matching Bold. */
  lemma {:induction false} PassAmount(rs: seq<Reading>)
    ensures Pass(rs).Ok? ==>
      var f := Pass(rs).value;
      var money := MoneyOf(rs);
      (f.amount.Some? <==> money.Some?) && (f.currency.Some? <==> money.Some?) &&
      (money.Some? ==> money.value == Ok(Money(f.currency.value, f.amount.value)))
    decreases |rs|
  {
    if rs != [] {
      var init := rs[..|rs| - 1];
      PassAmount(init);
      FirstSnoc(rs, Amount);
      var a := First(init, Amount);
      if a.Some? {
        assert rs[a.value] == init[a.value];
      }
    }
  }

  /** The pass raises exactly the exception the specification names. */
  lemma {:induction false} PassError(rs: seq<Reading>)
    ensures Pass(rs).Err? <==> ScanError(rs).Some?
    ensures Pass(rs).Err? ==> ScanError(rs) == Some(Pass(rs).error)
    decreases |rs|
  {
    if rs != [] {
      var init := rs[..|rs| - 1];
      PassError(init);
      PassIdentity(init);
      PassAmount(init);
      FirstSnoc(rs, Identity);
      FirstSnoc(rs, Amount);
      var m, a := First(init, Identity), First(init, Amount);
      if m.Some? {
        assert rs[m.value] == init[m.value];
      }
      if a.Some? {
        assert rs[a.value] == init[a.value];
      }
    }
  }

  /** The pass computes the specification. */
  lemma PassIsScan(rs: seq<Reading>)
    ensures Pass(rs) == Scan(rs)
  {
    PassError(rs);
    PassIdentity(rs);
    PassComment(rs);
    PassAmount(rs);
  }

  /** The pass over a prefix one reading longer. */
  lemma PassSnoc(rs: seq<Reading>, i: nat)
    requires i < |rs|
    ensures Pass(rs[..i + 1]) ==
      if Pass(rs[..i]).Err? then Pass(rs[..i]) else Absorb(Pass(rs[..i]).value, rs[i])
  {
    assert rs[..i + 1][..i] == rs[..i];
  }

  /** Once the pass has raised, later readings change nothing. */
  lemma {:induction false} PassErrorStays(rs: seq<Reading>, k: nat)
    requires k <= |rs| && Pass(rs[..k]).Err?
    ensures Pass(rs) == Pass(rs[..k])
    decreases |rs|
  {
    if k == |rs| {
      assert rs[..k] == rs;
    } else {
      var init := rs[..|rs| - 1];
      assert init[..k] == rs[..k];
      PassErrorStays(init, k);
    }
  }

  // ---------------------------------------------------------------------------
  // Properties of the parser
  // ---------------------------------------------------------------------------

  predicate IsMention(e: Entity) {
    e.kind.MentionName? || e.kind.Mention?
  }

  /** A Bold whose text fully matches the amount pattern. */
  predicate AmountFits(text: string, e: Entity) {
    e.kind.Bold? && FullMatch(Part(text, e)).Some?
  }

  /** A Bold that matches the pattern but whose run holds only commas. */
  predicate AmountFails(text: string, e: Entity) {
    AmountFits(text, e) && RemoveCommas(FullMatch(Part(text, e)).value.run) == []
  }

  /** Without entities, or without the leading "Пользователь", there is no
      record, whatever else the message holds. */
  lemma NoMatchWithoutEntitiesOrPrefix(messageId: int, text: string, entities: Option<seq<Entity>>,
                                       resolve: string -> Option<int>)
    requires entities.None? || entities.value == [] || !StartsWith(text, PREFIX)
    ensures ParseSpec(messageId, text, entities, resolve) == Ok(None)
  {
  }

  /** First match wins, separately for each group: the identity comes from the
      first mention, the comment from the first Blockquote and the amount from
      the first Bold that matches the pattern (a Bold that does not match does
      not block a later one). */
  lemma FirstWins(text: string, es: seq<Entity>, resolve: string -> Option<int>, j: nat)
    requires j < |es|
    ensures First(Readings(text, es, resolve), Identity) == Some(j) <==>
      IsMention(es[j]) && forall k :: 0 <= k < j ==> !IsMention(es[k])
    ensures First(Readings(text, es, resolve), Comment) == Some(j) <==>
      es[j].kind.Blockquote? && forall k :: 0 <= k < j ==> !es[k].kind.Blockquote?
    ensures First(Readings(text, es, resolve), Amount) == Some(j) <==>
      AmountFits(text, es[j]) && forall k :: 0 <= k < j ==> !AmountFits(text, es[k])
  {
    var rs := Readings(text, es, resolve);
    if IsMention(es[j]) && forall k :: 0 <= k < j ==> !IsMention(es[k]) {
      FirstIs(rs, Identity, j);
    }
    if es[j].kind.Blockquote? && forall k :: 0 <= k < j ==> !es[k].kind.Blockquote? {
      FirstIs(rs, Comment, j);
    }
    if AmountFits(text, es[j]) && forall k :: 0 <= k < j ==> !AmountFits(text, es[k]) {
      FirstIs(rs, Amount, j);
    }
  }

  /** A record, when there is one, is made of what the first mention, the
      first matching Bold and the first Blockquote carry: the user name is the
      mention's text, the user id the MentionName's own id or what the
      resolver gives for a Mention, the message type what the text after the
      mention announces, amount and currency those of the Bold. */
  lemma ParsedRecord(messageId: int, text: string, es: seq<Entity>, resolve: string -> Option<int>)
    requires ParseSpec(messageId, text, Some(es), resolve).Ok?
    requires ParseSpec(messageId, text, Some(es), resolve).value.Some?
    ensures var m := ParseSpec(messageId, text, Some(es), resolve).value.value;
      var rs := Readings(text, es, resolve);
      StartsWith(text, PREFIX) && First(rs, Identity).Some? && First(rs, Amount).Some? &&
      var mi, ai := First(rs, Identity).value, First(rs, Amount).value;
      m.userName == Part(text, es[mi]) &&
      (es[mi].kind.MentionName? ==> m.userId == es[mi].kind.userId) &&
      (es[mi].kind.Mention? ==> resolve(m.userName) == Some(m.userId)) &&
      TypeAfter(text, es[mi]) == Some(m.messageType) &&
      ParseAmount(Part(text, es[ai])) == Some(Ok(Money(m.currency, m.amount))) &&
      m.comment == (if First(rs, Comment).Some? then Some(Part(text, es[First(rs, Comment).value])) else None) &&
      m.messageId == messageId
  {
    var rs := Readings(text, es, resolve);
    var mi := First(rs, Identity);
    if mi.Some? {
      assert rs[mi.value] == Read(text, es[mi.value], resolve);
    }
  }

  /** When the pass raises nothing, the record is missing exactly when the
      identity, the amount or the message type was not found; the comment
      alone may stay unset. */
  lemma UnparsedIffMissing(messageId: int, text: string, es: seq<Entity>, resolve: string -> Option<int>)
    requires es != [] && StartsWith(text, PREFIX)
    requires ScanError(Readings(text, es, resolve)).None?
    ensures var rs := Readings(text, es, resolve);
      ParseSpec(messageId, text, Some(es), resolve) == Ok(None) <==>
        First(rs, Identity).None? || First(rs, Amount).None? || TypeOf(rs).None?
  {
  }

  /** A Bold reads as a failing amount exactly when its run holds only commas. */
  lemma ReadFails(text: string, e: Entity, resolve: string -> Option<int>)
    ensures var r := Read(text, e, resolve); r.Sum? && r.sum.Err? <==> AmountFails(text, e)
  {
    FullMatchSound(Part(text, e));
  }

  /** A resolver failure on the first mention propagates as the exception,
      unless the first matching Bold came before it and held only commas
      (later Bolds are never converted, so their commas do not matter). */
  lemma ResolverFailurePropagates(messageId: int, text: string, es: seq<Entity>,
                                  resolve: string -> Option<int>, j: nat)
    requires StartsWith(text, PREFIX) && j < |es|
    requires es[j].kind.Mention? && resolve(Part(text, es[j])).None?
    requires forall k :: 0 <= k < j ==> !IsMention(es[k])
    requires forall k :: 0 <= k < j && AmountFits(text, es[k]) && (forall l :: 0 <= l < k ==> !AmountFits(text, es[l])) ==>
      !AmountFails(text, es[k])
    ensures ParseSpec(messageId, text, Some(es), resolve) == Err(ResolveFailed(Part(text, es[j])))
  {
    var rs := Readings(text, es, resolve);
    FirstWins(text, es, resolve, j);
    var a := First(rs, Amount);
    if a.Some? && a.value < j {
      forall l | 0 <= l < a.value ensures !AmountFits(text, es[l]) {
        assert rs[l] == Read(text, es[l], resolve);
      }
      assert rs[a.value] == Read(text, es[a.value], resolve);
      ReadFails(text, es[a.value], resolve);
    }
    WhoFailsFirst(rs, j);
  }

  /** A failing first mention decides the error, unless the first amount came
      before it and failed. */
  lemma WhoFailsFirst(rs: seq<Reading>, j: nat)
    requires First(rs, Identity) == Some(j) && rs[j].who.Err?
    requires First(rs, Amount).Some? && First(rs, Amount).value < j ==> rs[First(rs, Amount).value].sum.Ok?
    ensures ScanError(rs) == Some(rs[j].who.error)
  {
  }

  /** `int("")` on a run of commas propagates as the exception, unless the
      first mention came before it and failed (later mentions are never
      looked up). */
  lemma AllCommasPropagates(messageId: int, text: string, es: seq<Entity>,
                            resolve: string -> Option<int>, j: nat)
    requires StartsWith(text, PREFIX) && j < |es|
    requires AmountFails(text, es[j])
    requires forall k :: 0 <= k < j ==> !AmountFits(text, es[k])
    requires forall k :: 0 <= k < j && IsMention(es[k]) && (forall l :: 0 <= l < k ==> !IsMention(es[l])) ==>
      Identify(text, es[k], resolve).Ok?
    ensures ParseSpec(messageId, text, Some(es), resolve) == Err(IntValueError(""))
  {
    var rs := Readings(text, es, resolve);
    FirstWins(text, es, resolve, j);
    ReadFails(text, es[j], resolve);
    assert rs[j].sum == Err(IntValueError(""));
    var m := First(rs, Identity);
    if m.Some? && m.value < j {
      forall l | 0 <= l < m.value ensures !IsMention(es[l]) {
        assert rs[l] == Read(text, es[l], resolve);
      }
      assert rs[m.value] == Read(text, es[m.value], resolve);
    }
    SumFailsFirst(rs, j);
  }

  /** A failing first amount decides the error, unless the first mention came
      before it and failed. */
  lemma SumFailsFirst(rs: seq<Reading>, j: nat)
    requires First(rs, Amount) == Some(j) && rs[j].sum.Err?
    requires First(rs, Identity).Some? && First(rs, Identity).value < j ==> rs[First(rs, Identity).value].who.Ok?
    ensures ScanError(rs) == Some(rs[j].sum.error)
  {
  }

  /** `parse_message_russian`: one pass over the entities, filling each field
      at most once; `resolve` is the client's entity lookup (None when it raises). */
  method ParseMessageRussian(messageId: int, message: string, entities: Option<seq<Entity>>,
                             resolve: string -> Option<int>) returns (r: Result<Option<ParsedMessage>, ParseError>)
    ensures r == ParseSpec(messageId, message, entities, resolve)
  {
    if entities.None? || entities.value == [] {
      return Ok(None);
    }
    if !StartsWith(message, PREFIX) {
      return Ok(None);
    }
    var es := entities.value;
    ghost var rs := Readings(message, es, resolve);

    var userId: Option<int> := None;
    var userName: Option<string> := None;
    var amount: Option<nat> := None;
    var currency: Option<Currency> := None;
    var comment: Option<string> := None;
    var messageType: Option<MessageType> := None;

    var i := 0;
    while i < |es|
      invariant 0 <= i <= |es|
      invariant Pass(rs[..i]) == Ok(Fields(userId, userName, amount, currency, comment, messageType))
    {
      ghost var before := Fields(userId, userName, amount, currency, comment, messageType);
      var entity := es[i];
      ghost var rd := Read(message, entity, resolve);
      assert rs[i] == rd;
      PassSnoc(rs, i);
      var entityPart := Part(message, entity);

      if userId.None? {
        match entity.kind {
          case MentionName(uid) =>
            userId := Some(uid);
            userName := Some(entityPart);
          case Mention =>
            userName := Some(entityPart);
            var user := resolve(entityPart);
            if user.None? {
              assert Absorb(before, rd) == Err(ResolveFailed(entityPart));
              PassErrorStays(rs, i + 1);
              PassIsScan(rs);
              return Err(ResolveFailed(entityPart));
            }
            userId := Some(user.value);
          case _ =>
        }
        if userId.Some? {
          var messageAfterUser := TextAfter(message, entity);
          if StartsWith(messageAfterUser, PAYMENT_WORD) {
            messageType := Some(Payment);
          } else if StartsWith(messageAfterUser, SUBSCRIPTION_WORDS) {
            messageType := Some(Subscription);
          }
        }
      }
      assert (userId, userName, messageType) ==
        if before.userId.None? && rd.Who? then
          (Some(rd.who.value.0), Some(rd.who.value.1),
           if rd.announced.Some? then rd.announced else before.messageType)
        else (before.userId, before.userName, before.messageType);

      if comment.None? {
        if entity.kind.Blockquote? {
          comment := Some(entityPart);
        }
      }
      assert comment == if before.comment.None? && rd.Quote? then Some(rd.quoted) else before.comment;

      if amount.None? {
        if entity.kind.Bold? {
          var amountMatch := FullMatch(entityPart);
          if amountMatch.Some? {
            FullMatchSound(entityPart);
            var money := AmountOf(amountMatch.value);
            if money.Err? {
              assert Absorb(before, rd) == Err(money.error);
              PassErrorStays(rs, i + 1);
              PassIsScan(rs);
              return Err(money.error);
            }
            currency := Some(money.value.currency);
            amount := Some(money.value.hundredths);
          }
        }
      }
      assert (amount, currency) ==
        if before.amount.None? && rd.Sum? then (Some(rd.sum.value.hundredths), Some(rd.sum.value.currency))
        else (before.amount, before.currency);
      assert Absorb(before, rd) == Ok(Fields(userId, userName, amount, currency, comment, messageType));
      i := i + 1;
    }
    assert rs[..i] == rs;
    PassIsScan(rs);

    if userId.None? || userName.None? || amount.None? || currency.None? || messageType.None? {
      return Ok(None);
    }
    return Ok(Some(ParsedMessage(userId.value, userName.value, amount.value, currency.value,
                                 comment, messageType.value, messageId)));
  }
}
