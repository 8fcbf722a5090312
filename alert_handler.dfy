/** The Telegram report: the gate every send goes through, the HTML layout
    of one signal, and the single message that joins the signals of a cycle.
    The Bot API call itself is not modelled: a send is the `Outgoing` value
    that would be posted, or `None` when the gate keeps it back. */
module AlertHandler {
  import opened Wrappers
  import opened Model

  datatype TelegramConfig = TelegramConfig(telegramSend: string, botToken: string, chatId: string)

  /** One message handed to the Bot API. */
  datatype Outgoing = Outgoing(token: string, chatId: string, text: string)

  /** Sending is switched on and both credentials are present. */
  predicate SendEnabled(cfg: TelegramConfig) {
    cfg.telegramSend == "OK" && cfg.botToken != "" && cfg.chatId != ""
  }

  /** Posts `message` as it is, behind the gate. */
  function SendTelegramMessage(cfg: TelegramConfig, message: string): (r: Option<Outgoing>)
    ensures r.Some? <==> cfg.telegramSend == "OK" && cfg.botToken != "" && cfg.chatId != ""
    ensures r.Some? ==> r.value == Outgoing(cfg.botToken, cfg.chatId, message)
  {
    if cfg.telegramSend != "OK" then None
    else if cfg.botToken == "" || cfg.chatId == "" then None
    else Some(Outgoing(cfg.botToken, cfg.chatId, message))
  }

  // ---------------------------------------------------------------------------
  // Layout of one signal

  /** A signal can be laid out when its stage, if any, has a name. */
  predicate StageNamed(s: Signal) {
    s.stage.Some? ==> IsNamedStage(s.stage.value.stageNumber)
  }

  function SignalEmoji(t: SignalType): string {
    if t == BUY then "🟢" else if t == SELL then "🔴" else if t == HOLD then "⚪" else "⚫"
  }

  function SignalLabel(t: SignalType): string {
    if t == BUY then "매수 신호" else if t == SELL then "매도 신호" else if t == HOLD then "홀드 신호"
    else "알 수 없는 신호"
  }

  /** The bold first line (and a blank line): emoji, market, label. */
  function Header(s: Signal): string {
    "<b>" + SignalEmoji(s.signalType) + " [" + s.market + "] " + SignalLabel(s.signalType) + "</b>\n\n"
  }

  function PriceLine(s: Signal, formatPrice: RealFormatter): string {
    "💰 <b>현재가:</b> " + formatPrice(s.currentPrice) + "\n"
  }

  /** The icon of a direction; only the three directions after a first
      observation have one. */
  function DirectionIcon(d: StageDir): (icon: string)
    ensures icon != "" <==> d == STAGE_DIR_NORMAL || d == STAGE_DIR_REVERSE || d == STAGE_DIR_MAINTAIN
  {
    if d == STAGE_DIR_NORMAL then "➡️"
    else if d == STAGE_DIR_REVERSE then "🔙"
    else if d == STAGE_DIR_MAINTAIN then "⏸️"
    else ""
  }

  /** The wording of a direction; empty exactly when the icon is. */
  function DirectionText(d: StageDir): (text: string)
    ensures text != "" <==> DirectionIcon(d) != ""
  {
    if d == STAGE_DIR_NORMAL then "정상 진행"
    else if d == STAGE_DIR_REVERSE then "역방향 전환"
    else if d == STAGE_DIR_MAINTAIN then "단계 유지"
    else ""
  }

  /** The stage name line, the description with the direction, and a blank
      line; nothing for a signal without a stage. */
  function StageBlock(stage: Option<Stage>): string
    requires stage.Some? ==> IsNamedStage(stage.value.stageNumber)
  {
    match stage
    case None => ""
    case Some(st) =>
      "📊 사이클 단계: <b>" + StageNumberString(st.stageNumber) + "</b>\n"
      + "✔ <i>" + st.description + ", " + DirectionIcon(st.stageDir) + " " + DirectionText(st.stageDir) + "</i>\n"
      + "\n"
  }

  function DescriptionBlock(description: string): string {
    if description != "" then "📝 <b>상세:</b>\n" + description + "\n\n" else ""
  }

  /** The strategy line and the timestamp line. */
  function Footer(s: Signal): string {
    "🎯 <b>전략:</b> " + s.strategyName + "\n" + "🕐 <b>시각:</b> " + s.timestamp
  }

  /** The HTML text of one signal: header, price line, stage block,
      description block and footer. */
  function FormatSignalMessage(s: Signal, formatPrice: RealFormatter): (m: string)
    requires StageNamed(s)
    ensures Header(s) <= m
    ensures |Footer(s)| <= |m| && m[|m| - |Footer(s)|..] == Footer(s)
  {
    Header(s) + PriceLine(s, formatPrice) + StageBlock(s.stage) + DescriptionBlock(s.description) + Footer(s)
  }

  /** Each signal type has its own emoji. */
  lemma SignalEmojiDistinct(t: SignalType)
    ensures |SignalEmoji(t)| == 1
    ensures SignalEmoji(t)[0] == '🟢' <==> t == BUY
    ensures SignalEmoji(t)[0] == '🔴' <==> t == SELL
    ensures SignalEmoji(t)[0] == '⚪' <==> t == HOLD
    ensures SignalEmoji(t)[0] == '⚫' <==> !IsNamedSignalType(t)
  {
  }

  /** The character at `i` of a text is the one at `i` of its first part. */
  lemma IndexInFirst(a: string, b: string, i: nat)
    requires i < |a|
    ensures (a + b)[i] == a[i]
  {
  }

  /** The character at `|a| + i` of a text is the one at `i` of its second part. */
  lemma IndexInSecond(a: string, b: string, i: nat)
    requires i < |b|
    ensures (a + b)[|a| + i] == b[i]
  {
  }

  /** The emoji after the opening `<b>` of a signal's text tells its type. */
  lemma FormatSignalMessageEmoji(s: Signal, formatPrice: RealFormatter)
    requires StageNamed(s)
    ensures var m := FormatSignalMessage(s, formatPrice);
            && |m| > 3
            && (m[3] == '🟢' <==> s.signalType == BUY)
            && (m[3] == '🔴' <==> s.signalType == SELL)
            && (m[3] == '⚪' <==> s.signalType == HOLD)
            && (m[3] == '⚫' <==> !IsNamedSignalType(s.signalType))
  {
    var header := Header(s);
    var emoji := SignalEmoji(s.signalType);
    var rest := PriceLine(s, formatPrice) + StageBlock(s.stage) + DescriptionBlock(s.description) + Footer(s);
    SignalEmojiDistinct(s.signalType);
    var tail := " [" + s.market + "] " + SignalLabel(s.signalType) + "</b>\n\n";
    assert header == "<b>" + emoji + tail;
    IndexInFirst("<b>" + emoji, tail, 3);
    IndexInSecond("<b>", emoji, 0);
    SplitFirst(header, PriceLine(s, formatPrice), StageBlock(s.stage), DescriptionBlock(s.description), Footer(s));
    IndexInFirst(header, rest, 3);
  }

  /** A five-part text is its first part followed by the other four. */
  lemma SplitFirst(a: string, b: string, c: string, d: string, e: string)
    ensures a + b + c + d + e == a + (b + c + d + e)
  {
  }

  /** A signal's text opens with the header and the price line; the stage
      block follows exactly when the signal has a stage, the description
      block exactly when the description is not empty, and the footer closes
      the text. */
  lemma FormatSignalMessageBlocks(s: Signal, formatPrice: RealFormatter)
    requires StageNamed(s)
    ensures var m := FormatSignalMessage(s, formatPrice);
            var p := |Header(s)| + |PriceLine(s, formatPrice)|;
            var q := p + |StageBlock(s.stage)|;
            && q < |m| && m[..p] == Header(s) + PriceLine(s, formatPrice)
            && (m[p] == '📊' <==> s.stage.Some?)
            && (m[q] == '📝' <==> s.description != "")
            && |Footer(s)| <= |m| && m[|m| - |Footer(s)|..] == Footer(s)
  {
    FooterStart(s);
    StageBlockStart(s.stage);
    DescriptionBlockStart(s.description);
    Layout(Header(s) + PriceLine(s, formatPrice), StageBlock(s.stage), DescriptionBlock(s.description), Footer(s));
  }

  /** Where the parts of a four-part text start. */
  lemma Layout(head: string, stageBlock: string, descBlock: string, footer: string)
    requires |footer| > 0
    ensures var m := head + stageBlock + descBlock + footer;
            && |head| + |stageBlock| < |m|
            && m[..|head|] == head
            && m[|head|] == (stageBlock + descBlock + footer)[0]
            && m[|head| + |stageBlock|] == (descBlock + footer)[0]
            && m[|m| - |footer|..] == footer
  {
    var m := head + stageBlock + descBlock + footer;
    assert m == head + (stageBlock + descBlock + footer);
    assert m == (head + stageBlock) + (descBlock + footer);
  }

  lemma FooterStart(s: Signal)
    ensures |Footer(s)| > 0 && Footer(s)[0] == '🎯'
  {
  }

  lemma StageBlockStart(stage: Option<Stage>)
    requires stage.Some? ==> IsNamedStage(stage.value.stageNumber)
    ensures stage.None? ==> StageBlock(stage) == ""
    ensures stage.Some? ==> |StageBlock(stage)| > 0 && StageBlock(stage)[0] == '📊'
  {
  }

  lemma DescriptionBlockStart(description: string)
    ensures description == "" ==> DescriptionBlock(description) == ""
    ensures description != "" ==> |DescriptionBlock(description)| > 0 && DescriptionBlock(description)[0] == '📝'
  {
  }

  /** A signal alert: the laid-out signal, behind the gate. */
  function SendTelegramAlert(cfg: TelegramConfig, s: Signal, formatPrice: RealFormatter): (r: Option<Outgoing>)
    requires StageNamed(s)
    ensures r.Some? <==> SendEnabled(cfg)
    ensures r.Some? ==> r.value == Outgoing(cfg.botToken, cfg.chatId, FormatSignalMessage(s, formatPrice))
  {
    if cfg.telegramSend != "OK" then None
    else if cfg.botToken == "" || cfg.chatId == "" then None
    else Some(Outgoing(cfg.botToken, cfg.chatId, FormatSignalMessage(s, formatPrice)))
  }

  // ---------------------------------------------------------------------------
  // One message for many signals

  const Separator: string := "\n-----------------------------------------------------\n\n"

  predicate AllStagesNamed(signals: seq<Signal>) {
    forall i :: 0 <= i < |signals| ==> StageNamed(signals[i])
  }

  /** The laid-out signals, in order. */
  function Messages(signals: seq<Signal>, formatPrice: RealFormatter): (messages: seq<string>)
    requires AllStagesNamed(signals)
    ensures |messages| == |signals|
    ensures forall i :: 0 <= i < |signals| ==> messages[i] == FormatSignalMessage(signals[i], formatPrice)
  {
    seq(|signals|, i requires 0 <= i < |signals| => FormatSignalMessage(signals[i], formatPrice))
  }

  /** Laying out one more signal appends its text. */
  lemma MessagesStep(signals: seq<Signal>, i: nat, formatPrice: RealFormatter)
    requires AllStagesNamed(signals) && i < |signals|
    ensures AllStagesNamed(signals[..i]) && AllStagesNamed(signals[..i + 1])
    ensures Messages(signals[..i + 1], formatPrice)
            == Messages(signals[..i], formatPrice) + [FormatSignalMessage(signals[i], formatPrice)]
  {
  }

  /** The texts, each followed by the separator, in order. */
  function Joined(messages: seq<string>): string
    decreases |messages|
  {
    if messages == [] then ""
    else Joined(messages[..|messages| - 1]) + messages[|messages| - 1] + Separator
  }

  /** Joining one more text appends it and the separator. */
  lemma JoinedSnoc(messages: seq<string>, message: string)
    ensures Joined(messages + [message]) == Joined(messages) + message + Separator
  {
    assert (messages + [message])[..|messages|] == messages;
  }

  lemma Regroup(w: string, x: string, y: string, z: string)
    ensures w + x + y + z == w + (x + y + z)
  {
  }

  /** Joining two runs of texts is joining each and concatenating. */
  lemma {:induction false} JoinedAppend(a: seq<string>, b: seq<string>)
    ensures Joined(a + b) == Joined(a) + Joined(b)
    decreases |b|
  {
    if b == [] {
      assert a + b == a;
    } else {
      var n := |b| - 1;
      var init := b[..n];
      JoinedAppend(a, init);
      assert a + b == (a + init) + [b[n]];
      assert b == init + [b[n]];
      JoinedSnoc(a + init, b[n]);
      JoinedSnoc(init, b[n]);
      Regroup(Joined(a), Joined(init), b[n], Separator);
    }
  }

  /** The report of a cycle: each laid-out signal followed by the
      separator. */
  function JoinedMessages(signals: seq<Signal>, formatPrice: RealFormatter): string
    requires AllStagesNamed(signals)
  {
    Joined(Messages(signals, formatPrice))
  }

  /** The report of two runs of signals is the report of each, concatenated. */
  lemma JoinedMessagesAppend(a: seq<Signal>, b: seq<Signal>, formatPrice: RealFormatter)
    requires AllStagesNamed(a) && AllStagesNamed(b)
    ensures AllStagesNamed(a + b)
    ensures JoinedMessages(a + b, formatPrice) == JoinedMessages(a, formatPrice) + JoinedMessages(b, formatPrice)
  {
    forall i | 0 <= i < |a + b| ensures StageNamed((a + b)[i]) {
      if i >= |a| {
        assert (a + b)[i] == b[i - |a|];
      }
    }
    assert Messages(a + b, formatPrice) == Messages(a, formatPrice) + Messages(b, formatPrice);
    JoinedAppend(Messages(a, formatPrice), Messages(b, formatPrice));
  }

  /** Joining one text is that text and the separator. */
  lemma JoinedSingle(message: string)
    ensures Joined([message]) == message + Separator
  {
    assert [message][..0] == [];
  }

  /** The report of one signal is its text and the separator. */
  lemma JoinedMessagesSingle(s: Signal, formatPrice: RealFormatter)
    requires StageNamed(s)
    ensures AllStagesNamed([s])
    ensures JoinedMessages([s], formatPrice) == FormatSignalMessage(s, formatPrice) + Separator
  {
    var message := FormatSignalMessage(s, formatPrice);
    assert Messages([s], formatPrice) == [message];
    JoinedSingle(message);
  }

  /** Lays out every signal, joins them with the separator after each, and
      posts the result once, behind the gate. */
  method SendTelegramMultiAlert(cfg: TelegramConfig, signals: seq<Signal>, formatPrice: RealFormatter)
    returns (r: Option<Outgoing>)
    requires AllStagesNamed(signals)
    ensures r.Some? <==> SendEnabled(cfg)
    ensures r.Some? ==> r.value == Outgoing(cfg.botToken, cfg.chatId, JoinedMessages(signals, formatPrice))
  {
    if cfg.telegramSend != "OK" {
      return None;
    }
    var token := cfg.botToken;
    var chatId := cfg.chatId;
    if token == "" || chatId == "" {
      return None;
    }

    var totalMessage := "";
    for i := 0 to |signals|
      invariant totalMessage == JoinedMessages(signals[..i], formatPrice)
    {
      MessagesStep(signals, i, formatPrice);
      var message := FormatSignalMessage(signals[i], formatPrice);
      assert (Messages(signals[..i], formatPrice) + [message])[..i] == Messages(signals[..i], formatPrice);
      totalMessage := totalMessage + message + Separator;
    }
    assert signals[..|signals|] == signals;
    return Some(Outgoing(token, chatId, totalMessage));
  }
}
