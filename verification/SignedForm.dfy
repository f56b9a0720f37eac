/** The text both sides sign: the server builds it from the request body, the agent rebuilds it
    from the decoded command. */
module SignedForm {
  import opened Wrappers

  type Byte = b: int | 0 <= b < 256

  /** The request body. Missing columns are nil. */
  datatype Body = Body(
    deploymentUuid: string,
    hostUuid: string,
    taskUuid: string,
    patchType: Option<string>,
    prePatchScript: Option<string>,
    patchScript: Option<string>,
    postPatchScript: Option<string>,
    rebootOption: Option<string>)

  /** The agent's `model.Command`. */
  datatype Command = Command(
    deploymentUuid: string,
    hostUuid: string,
    taskUuid: string,
    patchType: string,
    prePatchScript: string,
    patchScript: string,
    postPatchScript: string,
    rebootOption: string)

  /** The command the agent decodes from the JSON body; a null leaves a Go string empty. */
  function Decoded(b: Body): Command {
    Command(b.deploymentUuid, b.hostUuid, b.taskUuid, OrEmpty(b.patchType), OrEmpty(b.prePatchScript),
            OrEmpty(b.patchScript), OrEmpty(b.postPatchScript), OrEmpty(b.rebootOption))
  }

  // ----- the server's text -----

  /** `encode/1` of the patch task */
  function ServerText(b: Body): string {
    "{\"deployment_uuid\":\"" + (b.deploymentUuid
    + ("\",\"host_uuid\":\"" + (b.hostUuid
    + ("\",\"task_uuid\":\"" + (b.taskUuid
    + ("\",\"patch_type\":\"" + (OrEmpty(b.patchType)
    + ("\",\"pre_patch_script\":\"" + (OrEmpty(b.prePatchScript)
    + ("\",\"patch_script\":\"" + (OrEmpty(b.patchScript)
    + ("\",\"post_patch_script\":\"" + (OrEmpty(b.postPatchScript)
    + ("\",\"post_patch_reboot_option\":\"" + (OrEmpty(b.rebootOption)
    + "\"}")))))))))))))))
  }

  // ----- the agent's text -----

  /** `fmt.Sprintf/2` with the verb %s only. */
  function Sprintf(format: string, args: seq<string>): string
    decreases |format|
  {
    if format == "" then ""
    else if |format| >= 2 && format[..2] == "%s" && args != [] then args[0] + Sprintf(format[2..], args[1..])
    else [format[0]] + Sprintf(format[1..], args)
  }

  // The agent's format string, written out verb by verb.
  const FORMAT: string :=
    "{\"deployment_uuid\":\"" + ("%s"
    + ("\",\"host_uuid\":\"" + ("%s"
    + ("\",\"task_uuid\":\"" + ("%s"
    + ("\",\"patch_type\":\"" + ("%s"
    + ("\",\"pre_patch_script\":\"" + ("%s"
    + ("\",\"patch_script\":\"" + ("%s"
    + ("\",\"post_patch_script\":\"" + ("%s"
    + ("\",\"post_patch_reboot_option\":\"" + ("%s"
    + "\"}")))))))))))))))

  // The literal text around the arguments.
  const LITERALS: seq<string> := [
    "{\"deployment_uuid\":\"", "\",\"host_uuid\":\"", "\",\"task_uuid\":\"", "\",\"patch_type\":\"",
    "\",\"pre_patch_script\":\"", "\",\"patch_script\":\"", "\",\"post_patch_script\":\"",
    "\",\"post_patch_reboot_option\":\""]
  const CLOSING := "\"}"

  function Fields(c: Command): seq<string> {
    [c.deploymentUuid, c.hostUuid, c.taskUuid, c.patchType,
     c.prePatchScript, c.patchScript, c.postPatchScript, c.rebootOption]
  }

  function AgentText(c: Command): string {
    Sprintf(FORMAT, Fields(c))
  }

  // ----- the texts agree -----

  lemma {:induction false} SprintfCopies(literal: string, rest: string, args: seq<string>)
    requires '%' !in literal
    ensures Sprintf(literal + rest, args) == literal + Sprintf(rest, args)
    decreases |literal|
  {
    if literal == "" {
      assert literal + rest == rest;
    } else {
      assert (literal + rest)[1..] == literal[1..] + rest;
      assert (literal + rest)[0] == literal[0];
      SprintfCopies(literal[1..], rest, args);
    }
  }

  /** Literal texts and verbs in turn, from the k-th on. */
  function Format(literals: seq<string>, k: nat): string
    requires k <= |literals|
    decreases |literals| - k
  {
    if k == |literals| then CLOSING else literals[k] + ("%s" + Format(literals, k + 1))
  }

  /** Literal texts and values in turn, from the k-th on. */
  function Filled(literals: seq<string>, values: seq<string>, k: nat): string
    requires k <= |literals| == |values|
    decreases |literals| - k
  {
    if k == |literals| then CLOSING else literals[k] + (values[k] + Filled(literals, values, k + 1))
  }

  lemma {:induction false} SprintfFills(literals: seq<string>, values: seq<string>, k: nat)
    requires k <= |literals| == |values| && forall l :: l in literals ==> '%' !in l
    ensures Sprintf(Format(literals, k), values[k..]) == Filled(literals, values, k)
    decreases |literals| - k
  {
    if k == |literals| {
      SprintfCopies(CLOSING, "", values[k..]);
      assert CLOSING + "" == CLOSING;
    } else {
      var rest := Format(literals, k + 1);
      SprintfCopies(literals[k], "%s" + rest, values[k..]);
      assert ("%s" + rest)[..2] == "%s" && ("%s" + rest)[2..] == rest;
      assert values[k..][1..] == values[k + 1..];
      SprintfFills(literals, values, k + 1);
    }
  }

  lemma FormatIsLiterals()
    ensures FORMAT == Format(LITERALS, 0)
  {
    assert Format(LITERALS, 6) == LITERALS[6] + ("%s" + (LITERALS[7] + ("%s" + CLOSING)));
    assert Format(LITERALS, 4) == LITERALS[4] + ("%s" + (LITERALS[5] + ("%s" + Format(LITERALS, 6))));
    assert Format(LITERALS, 2) == LITERALS[2] + ("%s" + (LITERALS[3] + ("%s" + Format(LITERALS, 4))));
  }

  lemma ServerTextIsFilled(b: Body)
    ensures ServerText(b) == Filled(LITERALS, Fields(Decoded(b)), 0)
  {
    var f := Fields(Decoded(b));
    assert Filled(LITERALS, f, 6) == LITERALS[6] + (f[6] + (LITERALS[7] + (f[7] + CLOSING)));
    assert Filled(LITERALS, f, 4) == LITERALS[4] + (f[4] + (LITERALS[5] + (f[5] + Filled(LITERALS, f, 6))));
    assert Filled(LITERALS, f, 2) == LITERALS[2] + (f[2] + (LITERALS[3] + (f[3] + Filled(LITERALS, f, 4))));
  }

  lemma LiteralsHaveNoVerb()
    ensures forall l :: l in LITERALS ==> '%' !in l
  {
  }

  /** The agent rebuilds the very text the server signed, nil fields included. */
  lemma TextsAgree(b: Body)
    ensures AgentText(Decoded(b)) == ServerText(b)
  {
    FormatIsLiterals();
    ServerTextIsFilled(b);
    var f := Fields(Decoded(b));
    LiteralsHaveNoVerb();
    SprintfFills(LITERALS, f, 0);
    assert f[0..] == f;
  }

  // ----- the signed bytes -----

  predicate Ascii(text: string) {
    forall c :: c in text ==> c as int < 128
  }

  /** The server signs a charlist, one byte for each code point; a larger code point raises. */
  function CharlistBytes(text: string): Option<seq<Byte>> {
    if text == "" then Some([])
    else
      match CharlistBytes(text[1..])
      case None => None
      case Some(rest) => if text[0] as int < 256 then Some([text[0] as int] + rest) else None
  }

  /** UTF-8 (section 3 of RFC 3629). */
  function Utf8Char(c: char): (bytes: seq<Byte>)
    ensures |bytes| == 1 <==> c as int < 128
    ensures |bytes| >= 1
  {
    var n := c as int;
    if n < 0x80 then [n]
    else if n < 0x800 then [0xC0 + n / 0x40, 0x80 + n % 0x40]
    else if n < 0x10000 then [0xE0 + n / 0x1000, 0x80 + n / 0x40 % 0x40, 0x80 + n % 0x40]
    else [0xF0 + n / 0x40000 % 8, 0x80 + n / 0x1000 % 0x40, 0x80 + n / 0x40 % 0x40, 0x80 + n % 0x40]
  }

  /** The agent signs the bytes of a Go string. */
  function Utf8Bytes(text: string): seq<Byte> {
    if text == "" then [] else Utf8Char(text[0]) + Utf8Bytes(text[1..])
  }

  lemma {:induction false} Utf8Longer(text: string)
    ensures |Utf8Bytes(text)| >= |text|
    ensures |Utf8Bytes(text)| == |text| ==> Ascii(text)
  {
    if text == "" {
    } else {
      Utf8Longer(text[1..]);
      assert text == [text[0]] + text[1..];
    }
  }

  lemma {:induction false} CharlistLength(text: string)
    ensures CharlistBytes(text).Some? ==> |CharlistBytes(text).value| == |text|
  {
    if text == "" {
    } else {
      CharlistLength(text[1..]);
    }
  }

  lemma {:induction false} AsciiBytesAgree(text: string)
    requires Ascii(text)
    ensures CharlistBytes(text) == Some(Utf8Bytes(text))
  {
    if text == "" {
    } else {
      assert text[0] in text && forall c :: c in text[1..] ==> c in text;
      AsciiBytesAgree(text[1..]);
    }
  }

  /** A charlist gives its code points as bytes, or raises on one above 255. */
  lemma {:induction false} CharlistIsCodePoints(text: string)
    ensures CharlistBytes(text).None? <==> exists i :: 0 <= i < |text| && text[i] as int > 255
    ensures CharlistBytes(text).Some? ==>
              && |CharlistBytes(text).value| == |text|
              && forall i :: 0 <= i < |text| ==> CharlistBytes(text).value[i] == text[i] as int
  {
    if text == "" {
    } else {
      var rest := text[1..];
      CharlistIsCodePoints(rest);
      assert forall i :: 0 < i < |text| ==> text[i] == rest[i - 1];
      if exists i :: 0 <= i < |rest| && rest[i] as int > 255 {
        var i :| 0 <= i < |rest| && rest[i] as int > 255;
        assert text[i + 1] as int > 255;
      }
    }
  }

  /** What a UTF-8 decoder reads: the payload bits of the lead byte, then six of each byte after it. */
  function Payload(bytes: seq<Byte>): int {
    if |bytes| == 1 then bytes[0]
    else if |bytes| == 2 then Joined(bytes[0] as int - 192, bytes[1])
    else if |bytes| == 3 then Joined(Joined(bytes[0] as int - 224, bytes[1]), bytes[2])
    else if |bytes| == 4 then Joined(Joined(Joined(bytes[0] as int - 240, bytes[1]), bytes[2]), bytes[3])
    else 0
  }

  function Joined(high: int, low: Byte): int {
    high * 64 + (low as int - 128)
  }

  lemma SplitOff(n: int)
    requires 0 <= n
    ensures n == n / 64 * 64 + n % 64 && n / 64 / 64 == n / 0x1000 && n / 0x1000 / 64 == n / 0x40000
  {
  }

  /** Decoding gives the code point back, and the lead byte tells the length. */
  lemma Utf8RoundTrip(c: char)
    ensures Payload(Utf8Char(c)) == c as int
    ensures var first := Utf8Char(c)[0];
            |Utf8Char(c)| == if first < 128 then 1 else if first < 224 then 2 else if first < 240 then 3 else 4
  {
    var n := c as int;
    SplitOff(n);
    SplitOff(n / 64);
    SplitOff(n / 0x1000);
    if n < 0x80 {
      assert Utf8Char(c) == [n];
    } else if n < 0x800 {
      assert Utf8Char(c) == [0xC0 + n / 0x40, 0x80 + n % 0x40];
    } else if n < 0x10000 {
      assert Utf8Char(c) == [0xE0 + n / 0x1000, 0x80 + n / 0x40 % 0x40, 0x80 + n % 0x40];
    } else {
      assert n / 0x40000 < 8;
      assert Utf8Char(c) == [0xF0 + n / 0x40000, 0x80 + n / 0x1000 % 0x40, 0x80 + n / 0x40 % 0x40, 0x80 + n % 0x40];
    }
  }

  /** Both sides sign the same bytes exactly when the text is ASCII. */
  lemma BytesAgreeExactly(text: string)
    ensures CharlistBytes(text) == Some(Utf8Bytes(text)) <==> Ascii(text)
  {
    if Ascii(text) {
      AsciiBytesAgree(text);
    } else {
      Utf8Longer(text);
      CharlistLength(text);
    }
  }

  // ----- acceptance -----

  /** The keyed hash, any function of key and bytes. */
  type Mac = (string, seq<Byte>) -> seq<Byte>

  /** The token header; None when signing raised. */
  function Token(mac: Mac, secret: string, b: Body): Option<seq<Byte>> {
    match CharlistBytes(ServerText(b))
    case None => None
    case Some(bytes) => Some(mac(secret, bytes))
  }

  /** `ValidateManagementCommandRequest` */
  predicate Validates(mac: Mac, secret: string, c: Command, token: seq<Byte>) {
    mac(secret, Utf8Bytes(AgentText(c))) == token
  }

  /** Signing works, and the agent accepts what it gives. */
  predicate TokenIsAccepted(mac: Mac, secret: string, b: Body) {
    var token := Token(mac, secret, b);
    token.Some? && Validates(mac, secret, Decoded(b), token.value)
  }

  predicate AsciiFields(b: Body) {
    forall f :: f in Fields(Decoded(b)) ==> Ascii(f)
  }

  lemma {:induction false} FilledAscii(literals: seq<string>, values: seq<string>, k: nat)
    requires k <= |literals| == |values| && forall l :: l in literals ==> Ascii(l)
    ensures Ascii(Filled(literals, values, k)) <==> forall i :: k <= i < |values| ==> Ascii(values[i])
    decreases |literals| - k
  {
    if k == |literals| {
    } else {
      FilledAscii(literals, values, k + 1);
      AsciiConcat(values[k], Filled(literals, values, k + 1));
      AsciiConcat(literals[k], values[k] + Filled(literals, values, k + 1));
    }
  }

  lemma AsciiConcat(a: string, b: string)
    ensures Ascii(a + b) <==> Ascii(a) && Ascii(b)
  {
    if Ascii(a + b) {
      assert forall c :: c in a ==> c in a + b;
      assert forall c :: c in b ==> c in a + b;
    }
  }

  lemma TextIsAscii(b: Body)
    ensures Ascii(ServerText(b)) <==> AsciiFields(b)
  {
    ServerTextIsFilled(b);
    LiteralsAreAscii();
    FilledAscii(LITERALS, Fields(Decoded(b)), 0);
  }

  lemma LiteralsAreAscii()
    ensures forall l :: l in LITERALS ==> Ascii(l)
  {
    AsciiLiterals(0);
    AsciiLiterals(2);
    AsciiLaterLiterals(4);
    AsciiLaterLiterals(6);
  }

  lemma AsciiLiterals(k: nat)
    requires k in {0, 2}
    ensures forall i :: k <= i < k + 2 ==> Ascii(LITERALS[i])
  {
    forall i | k <= i < k + 2 ensures Ascii(LITERALS[i]) {
    }
  }

  lemma AsciiLaterLiterals(k: nat)
    requires k in {4, 6}
    ensures forall i :: k <= i < k + 2 ==> Ascii(LITERALS[i])
  {
    forall i | k <= i < k + 2 ensures Ascii(LITERALS[i]) {
    }
  }

  lemma AsciiIsAccepted(mac: Mac, secret: string, b: Body)
    requires AsciiFields(b)
    ensures TokenIsAccepted(mac, secret, b)
  {
    TextsAgree(b);
    TextIsAscii(b);
    BytesAgreeExactly(ServerText(b));
  }

  /** A hash that gives the bytes themselves tells other fields apart. */
  lemma OthersAreNot(mac: Mac, secret: string, b: Body)
    requires !AsciiFields(b) && forall key, bytes :: mac(key, bytes) == bytes
    ensures !TokenIsAccepted(mac, secret, b)
  {
    TextsAgree(b);
    TextIsAscii(b);
    BytesAgreeExactly(ServerText(b));
  }

  /** The agent accepts one token for a command at most, whatever the keyed hash and the secret are. */
  lemma OneTokenAtMost(mac: Mac, secret: string, c: Command, one: seq<Byte>, other: seq<Byte>)
    requires Validates(mac, secret, c, one) && Validates(mac, secret, c, other)
    ensures one == other == mac(secret, Utf8Bytes(AgentText(c)))
  {
  }

  /** For ASCII fields that one is the token the server signs with, and no other. */
  lemma OnlyTheSignedToken(mac: Mac, secret: string, b: Body, token: seq<Byte>)
    requires AsciiFields(b)
    ensures Validates(mac, secret, Decoded(b), token) <==> Token(mac, secret, b) == Some(token)
  {
    TextsAgree(b);
    TextIsAscii(b);
    BytesAgreeExactly(ServerText(b));
  }

  /** With equal secrets the agent accepts exactly the server's token, whatever the keyed hash is, if and
      only if every field of the body is ASCII. */
  lemma AcceptedExactlyWhenAscii(secret: string, b: Body)
    ensures (forall mac: Mac, token ::
               Validates(mac, secret, Decoded(b), token) <==> Token(mac, secret, b) == Some(token))
            <==> AsciiFields(b)
  {
    if AsciiFields(b) {
      forall mac: Mac, token
        ensures Validates(mac, secret, Decoded(b), token) <==> Token(mac, secret, b) == Some(token)
      {
        OnlyTheSignedToken(mac, secret, b, token);
      }
    } else {
      var plain: Mac := (key, bytes) => bytes;
      OthersAreNot(plain, secret, b);
      var token := Token(plain, secret, b);
      assert token.Some? ==> !Validates(plain, secret, Decoded(b), token.value);
      assert Validates(plain, secret, Decoded(b), Utf8Bytes(AgentText(Decoded(b))));
    }
  }

  // ----- reading the form back -----

  /** The characters before the first double quote. */
  function UpToQuote(text: string): (value: string)
    ensures value <= text && '"' !in value
  {
    if text == "" || text[0] == '"' then "" else [text[0]] + UpToQuote(text[1..])
  }

  /** Read literal texts and quoted values in turn. */
  function ParseFrom(literals: seq<string>, k: nat, text: string): Option<seq<string>>
    requires k <= |literals|
    decreases |literals| - k
  {
    if k == |literals| then (if text == CLOSING then Some([]) else None)
    else if !(literals[k] <= text) then None
    else
      var after := text[|literals[k]|..];
      var value := UpToQuote(after);
      match ParseFrom(literals, k + 1, after[|value|..])
      case None => None
      case Some(rest) => Some([value] + rest)
  }

  function Parse(text: string): Option<seq<string>> {
    ParseFrom(LITERALS, 0, text)
  }

  predicate QuoteFree(values: seq<string>) {
    forall v :: v in values ==> '"' !in v
  }

  lemma {:induction false} ReadsValue(value: string, rest: string)
    requires '"' !in value && rest != "" && rest[0] == '"'
    ensures UpToQuote(value + rest) == value
  {
    if value == "" {
      assert value + rest == rest;
    } else {
      assert (value + rest)[1..] == value[1..] + rest;
      ReadsValue(value[1..], rest);
    }
  }

  /** Each literal but the first starts with the quote that ends the value before it. */
  predicate QuotesValues(literals: seq<string>) {
    forall i :: 0 < i < |literals| ==> literals[i] != "" && literals[i][0] == '"'
  }

  lemma DropFront(front: string, rest: string)
    ensures front <= front + rest && (front + rest)[|front|..] == rest
  {
  }

  lemma {:induction false} ParseInverts(literals: seq<string>, values: seq<string>, k: nat)
    requires k <= |literals| == |values| && QuoteFree(values) && QuotesValues(literals)
    ensures ParseFrom(literals, k, Filled(literals, values, k)) == Some(values[k..])
    decreases |literals| - k
  {
    if k == |literals| {
    } else {
      var rest := Filled(literals, values, k + 1);
      ParseInverts(literals, values, k + 1);
      DropFront(literals[k], values[k] + rest);
      ReadsValue(values[k], rest);
      DropFront(values[k], rest);
      assert [values[k]] + values[k + 1..] == values[k..];
    }
  }

  lemma {:induction false} ParseGivesQuoteFree(literals: seq<string>, k: nat, text: string)
    requires k <= |literals|
    ensures ParseFrom(literals, k, text).Some? ==> QuoteFree(ParseFrom(literals, k, text).value)
    decreases |literals| - k
  {
    if k == |literals| {
    } else if literals[k] <= text {
      var after := text[|literals[k]|..];
      ParseGivesQuoteFree(literals, k + 1, after[|UpToQuote(after)|..]);
    }
  }

  lemma QuotedLiterals(k: nat)
    requires k in {0, 2, 4, 6}
    ensures forall i :: k <= i < k + 2 && 0 < i ==> LITERALS[i] != "" && LITERALS[i][0] == '"'
  {
  }

  lemma LiteralsQuoteValues()
    ensures QuotesValues(LITERALS)
  {
    QuotedLiterals(0);
    QuotedLiterals(2);
    QuotedLiterals(4);
    QuotedLiterals(6);
  }

  /** Reading the signed text back gives the fields exactly when no field holds a double quote. */
  lemma ParseInvertsExactly(b: Body)
    ensures Parse(ServerText(b)) == Some(Fields(Decoded(b))) <==> QuoteFree(Fields(Decoded(b)))
  {
    var f := Fields(Decoded(b));
    ServerTextIsFilled(b);
    if QuoteFree(f) {
      LiteralsQuoteValues();
      ParseInverts(LITERALS, f, 0);
      assert f[0..] == f;
    } else {
      ParseGivesQuoteFree(LITERALS, 0, ServerText(b));
    }
  }

  /** So two bodies with quote-free fields that sign the same text give the same command. */
  lemma SignedTextIsUnambiguous(a: Body, b: Body)
    requires QuoteFree(Fields(Decoded(a))) && QuoteFree(Fields(Decoded(b)))
    requires ServerText(a) == ServerText(b)
    ensures Decoded(a) == Decoded(b)
  {
    ParseInvertsExactly(a);
    ParseInvertsExactly(b);
    var f, g := Fields(Decoded(a)), Fields(Decoded(b));
    assert f == g;
    assert forall i :: 0 <= i < 8 ==> f[i] == g[i];
    assert f[0] == g[0] && f[1] == g[1] && f[2] == g[2] && f[3] == g[3] && f[4] == g[4] && f[5] == g[5] && f[6] == g[6];
  }
}
