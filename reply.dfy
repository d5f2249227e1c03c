/**
 * The passive XML replies the server sends back to WeChat:
 * `generateXmlResponse` (webot.js:214-223) and `generateErrorResponse`
 * (webot.js:226-245). `Render` lays a reply out exactly as the two template
 * literals do, and `Parse` reads such a text back; the round trip is what
 * the two generators are proved against.
 */
module Reply {
  import opened Wrappers
  import opened Inbound
  import Decimal

  /** A passive reply: a text message, or the FAIL form used when the addressees are unknown. */
  datatype Reply =
    | Text(toUser: string, fromUser: string, createTime: int, content: string)
    | Fail(message: string)

  // Long string literals are split into shorter pieces so that the
  // verifier sees their individual characters.
  const TextHead := "<xml>\n    <ToUserName><![CDATA["
  const AfterTo := "]]></ToUserName>\n" + "    <FromUserName><![CDATA["
  const AfterFrom := "]]></FromUserName>\n    <CreateTime>"
  const AfterTime := "</CreateTime>\n" + "    <MsgType><![CDATA[text]]></MsgType>\n" + "    <Content><![CDATA["
  const TextTail := "]]></Content>\n  </xml>"
  const FailHead := "<xml>\n    <Return>FAIL</Return>\n" + "    <Message><![CDATA["
  const FailTail := "]]></Message>\n  </xml>"

  /** The layout of both template literals, each interpolated field between fixed text. */
  function Render(r: Reply): string {
    match r
    case Text(to, from, time, content) =>
      TextHead + (to + (AfterTo + (from + (AfterFrom
        + (Decimal.IntText(time) + (AfterTime + (content + TextTail)))))))
    case Fail(message) => FailHead + (message + FailTail)
  }

  /** A field can be read back when it cannot end its CDATA section early. */
  predicate Plain(s: string) {
    ']' !in s
  }

  predicate ReadableReply(r: Reply) {
    match r
    case Text(to, from, _, content) => Plain(to) && Plain(from) && Plain(content)
    case Fail(message) => Plain(message)
  }

  /** The position of the first `c` in `s`, or `|s|` when there is none. */
  function IndexOf(s: string, c: char): (i: nat)
    ensures i <= |s|
  {
    if s == [] || s[0] == c then 0 else 1 + IndexOf(s[1..], c)
  }

  /** Splits `s` before the first `stop`. */
  function Until(s: string, stop: char): (string, string) {
    var i := IndexOf(s, stop);
    (s[..i], s[i..])
  }

  /** The rest of `s` after the fixed text `lit`, if `s` starts with it. */
  function After(s: string, lit: string): Option<string> {
    if lit <= s then Some(s[|lit|..]) else None
  }

  function ParseText(s: string): Option<Reply> {
    var (to, r1) := Until(s, ']');
    match After(r1, AfterTo)
    case None => None
    case Some(r2) =>
      var (from, r3) := Until(r2, ']');
      match After(r3, AfterFrom)
      case None => None
      case Some(r4) =>
        var (time, r5) := Until(r4, '<');
        match After(r5, AfterTime)
        case None => None
        case Some(r6) =>
          var (content, r7) := Until(r6, ']');
          match Decimal.ParseInt(time)
          case None => None
          case Some(t) => if r7 == TextTail then Some(Text(to, from, t, content)) else None
  }

  function ParseFail(s: string): Option<Reply> {
    var (message, rest) := Until(s, ']');
    if rest == FailTail then Some(Fail(message)) else None
  }

  /** Reads a reply text back into its fields; None for any other text. */
  function Parse(s: string): Option<Reply> {
    match After(s, TextHead)
    case Some(rest) => ParseText(rest)
    case None =>
      match After(s, FailHead)
      case Some(rest) => ParseFail(rest)
      case None => None
  }

  lemma {:induction false} IndexOfFirst(x: string, rest: string, c: char)
    requires c !in x && rest != [] && rest[0] == c
    ensures IndexOf(x + rest, c) == |x|
    decreases |x|
  {
    if x != [] {
      assert (x + rest)[1..] == x[1..] + rest;
      IndexOfFirst(x[1..], rest, c);
    }
  }

  lemma UntilSplits(x: string, rest: string, c: char)
    requires c !in x && rest != [] && rest[0] == c
    ensures Until(x + rest, c) == (x, rest)
  {
    IndexOfFirst(x, rest, c);
    assert (x + rest)[..|x|] == x && (x + rest)[|x|..] == rest;
  }

  lemma AfterPrefix(lit: string, rest: string)
    ensures After(lit + rest, lit) == Some(rest)
  {
    assert lit <= lit + rest;
    assert (lit + rest)[|lit|..] == rest;
  }

  /** Every readable reply reads back as itself. */
  lemma RoundTrip(r: Reply)
    requires ReadableReply(r)
    ensures Parse(Render(r)) == Some(r)
  {
    match r
    case Text(to, from, time, content) =>
      var digits := Decimal.IntText(time);
      var r7 := TextTail;
      var r6 := content + r7;
      var r5 := AfterTime + r6;
      var r4 := digits + r5;
      var r3 := AfterFrom + r4;
      var r2 := from + r3;
      var r1 := AfterTo + r2;
      assert Render(r) == TextHead + (to + r1);
      assert AfterTo[0] == ']' && AfterFrom[0] == ']' && AfterTime[0] == '<' && TextTail[0] == ']';
      assert r1[0] == ']' && r3[0] == ']' && r5[0] == '<' && r7[0] == ']';
      AfterPrefix(TextHead, to + r1);
      UntilSplits(to, r1, ']');
      AfterPrefix(AfterTo, r2);
      UntilSplits(from, r3, ']');
      AfterPrefix(AfterFrom, r4);
      Decimal.IntTextChars(time, '<');
      UntilSplits(digits, r5, '<');
      AfterPrefix(AfterTime, r6);
      UntilSplits(content, r7, ']');
      Decimal.IntTextRoundTrip(time);
    case Fail(message) =>
      assert TextHead[11] != FailHead[11];
      assert !(TextHead <= Render(r));
      AfterPrefix(FailHead, message + FailTail);
      assert FailTail[0] == ']';
      UntilSplits(message, FailTail, ']');
  }

  /**
   * `generateXmlResponse(fromUser, toUser, content)` with `Date.now()` given
   * as `nowMs`: a text reply to `toUser` whose creation time is the current
   * time in whole seconds, rounded down.
   */
  function XmlResponse(fromUser: string, toUser: string, content: string, nowMs: int): string {
    Render(Text(toUser, fromUser, nowMs / 1000, content))
  }

  /**
   * A reader of the text reply finds the addressee, the sender and the
   * content it was given, and a creation time that is `nowMs` in seconds.
   */
  lemma XmlResponseReads(fromUser: string, toUser: string, content: string, nowMs: int)
    requires Plain(fromUser) && Plain(toUser) && Plain(content)
    ensures var r := XmlResponse(fromUser, toUser, content, nowMs);
      && Parse(r).Some? && Parse(r).value.Text?
      && Parse(r).value.toUser == toUser
      && Parse(r).value.fromUser == fromUser
      && Parse(r).value.content == content
      && Parse(r).value.createTime * 1000 <= nowMs < Parse(r).value.createTime * 1000 + 1000
  {
    RoundTrip(Text(toUser, fromUser, nowMs / 1000, content));
  }

  /** The text both error paths carry: "error: " in Chinese, then the message. */
  const ErrorPrefix := "错误："

  /**
   * `generateErrorResponse(parsedMessage, errorMessage)` (`parsedMessage` is
   * `undefined` when None): addressed back to the sender when both user
   * names are truthy, the FAIL form otherwise.
   */
  function ErrorResponse(parsed: Option<Message>, errorMessage: string, nowMs: int): string {
    if parsed.Some? && Truthy(parsed.value.fromUser) && Truthy(parsed.value.toUser) then
      XmlResponse(Interp(parsed.value.toUser), Interp(parsed.value.fromUser), ErrorPrefix + errorMessage, nowMs)
    else
      Render(Fail(errorMessage))
  }

  /**
   * A reader of the error reply finds it addressed back to the sender with
   * the prefixed message when both user names are truthy, and the FAIL
   * form with the message otherwise.
   */
  lemma ErrorResponseReads(parsed: Option<Message>, errorMessage: string, nowMs: int)
    requires Plain(errorMessage)
    ensures var r := ErrorResponse(parsed, errorMessage, nowMs);
      if parsed.Some? && Truthy(parsed.value.fromUser) && Truthy(parsed.value.toUser) then
        Plain(parsed.value.fromUser.value) && Plain(parsed.value.toUser.value) ==>
          && Parse(r).Some? && Parse(r).value.Text?
          && Parse(r).value.toUser == parsed.value.fromUser.value
          && Parse(r).value.fromUser == parsed.value.toUser.value
          && Parse(r).value.content == ErrorPrefix + errorMessage
      else
        Parse(r) == Some(Fail(errorMessage))
  {
    if parsed.Some? && Truthy(parsed.value.fromUser) && Truthy(parsed.value.toUser) {
      var m := parsed.value;
      if Plain(m.fromUser.value) && Plain(m.toUser.value) {
        assert Plain(ErrorPrefix + errorMessage);
        XmlResponseReads(Interp(m.toUser), Interp(m.fromUser), ErrorPrefix + errorMessage, nowMs);
      }
    } else {
      RoundTrip(Fail(errorMessage));
    }
  }
}
