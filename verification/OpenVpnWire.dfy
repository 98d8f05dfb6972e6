/**
 * From the daemon's text to the messages that are billed: what the node hears on
 * the management stream (backend/openvpn/mgmt.go) is what billing assumes that it
 * hears.
 */
module OpenVpnWire {
  import opened Wrappers
  import opened Numbers
  import opened Traffic
  import opened OpenVpnStats
  import opened OpenVpnMgmt
  import World = OpenVpnWorld

  type Message = World.Message

  // -------------------------------------------------------------- any stream

  /** What billing hears when a line is handled: a session end, a status answer, or nothing. */
  function MessageOf(name: Naming, s: State, line: Line): seq<Message> {
    if line.StatusEnd? then [World.Status(s.statusBuf)]
    else
      match OutputOf(s, line)
      case SessionEnd(cid, cn, rx, tx) => [World.End(Row(name(cid), name(cn), Bytes(rx, tx)))]
      case _ => []
  }

  function Messages(name: Naming, s: State, inputs: seq<Input>, n: nat): seq<Message>
    requires n <= |inputs|
  {
    if n == 0 then [] else Messages(name, s, inputs, n - 1) + MessageOf(name, After(s, inputs, n - 1), LineOf(inputs[n - 1]))
  }

  /** Behind the last status end before input `n`. */
  function AnswerStart(inputs: seq<Input>, n: nat): (from: nat)
    requires n <= |inputs|
    ensures from <= n && (from > 0 ==> LineOf(inputs[from - 1]).StatusEnd?)
    ensures forall i :: from <= i < n ==> !LineOf(inputs[i]).StatusEnd?
  {
    if n == 0 || LineOf(inputs[n - 1]).StatusEnd? then n else AnswerStart(inputs, n - 1)
  }

  /** Nothing half-read. */
  ghost predicate AtRest(s: State) {
    s.pending == NOTHING && s.statusBuf == []
  }

  function EndMeant(name: Naming, header: Line, env: Environment): seq<Message> {
    if header.Disconnect? && header.cid != "" then
      [World.End(Row(name(header.cid), name(Get(env, "common_name")),
                     Bytes(ParseInt(Get(env, "bytes_received")), ParseInt(Get(env, "bytes_sent")))))]
    else []
  }

  /**
   * Every input of every stream, however client events, status lines and user
   * changes are interleaved: a status end is heard as the rows since the one
   * before it, the end of a disconnect block as that session's end, by its own
   * header and environment, and nothing else is heard at all.
   */
  lemma EveryMessage(name: Naming, s: State, inputs: seq<Input>, n: nat)
    requires n < |inputs| && AtRest(s)
    ensures var h, line := HeaderOf(inputs, n), LineOf(inputs[n]);
            MessageOf(name, After(s, inputs, n), line)
            == if line.StatusEnd? then [World.Status(RowsBetween(inputs, AnswerStart(inputs, n), n))]
               else if line.EnvEnd? && h >= 0 then EndMeant(name, LineOf(inputs[h]), EnvironmentOf(inputs, h, n))
               else []
  {
    var from := AnswerStart(inputs, n);
    RowsPile(s, inputs, from, n);
    EveryLine(s, inputs, n);
    hide After, HeaderOf, EnvironmentOf, RowsBetween, AnswerStart, OutputOf, Get, Authorized, ParseInt;
    assert OutputAt(s, inputs, n) == OutputOf(After(s, inputs, n), LineOf(inputs[n]));
  }

  // ---------------------------------------------------------- text round trips

  lemma {:induction false} IndexOfBehind(a: string, b: string, c: char)
    requires c !in a
    ensures IndexOf(a + [c] + b, c) == |a|
    ensures Before(a + [c] + b, c) == a && Behind(a + [c] + b, c) == b
  {
    var s, i := a + [c] + b, IndexOf(a + [c] + b, c);
    assert s[|a|] == c && forall j :: 0 <= j < |a| ==> s[j] == a[j];
    assert i == |a|;
    hide IndexOf;
    assert s[..|a|] == a && s[|a| + 1..] == b;
  }

  lemma IndexOfNone(a: string, c: char)
    requires c !in a
    ensures Before(a, c) == a && Behind(a, c) == ""
  {
    hide IndexOf;
    assert IndexOf(a, c) == |a|;
  }

  /** Fields with a separator between each two. */
  function Joined(fields: seq<string>, c: char): string {
    if fields == [] then "" else if |fields| == 1 then fields[0] else fields[0] + [c] + Joined(fields[1..], c)
  }

  lemma {:induction false} FieldsOfJoined(fields: seq<string>, c: char)
    requires fields != [] && forall i :: 0 <= i < |fields| ==> c !in fields[i]
    ensures Fields(Joined(fields, c), c) == fields
  {
    if |fields| > 1 {
      FieldsOfJoined(fields[1..], c);
      IndexOfBehind(fields[0], Joined(fields[1..], c), c);
      assert (fields[0] + [c] + Joined(fields[1..], c))[|fields[0]|] == c;
    }
  }

  // ----------------------------------------------------------------- telegrams

  /** A session as the daemon counts it. */
  datatype Client = Client(cid: string, cn: string, bytes: Bytes) {
    predicate Fits() {
      0 <= bytes.rx <= MAX_INT64 && 0 <= bytes.tx <= MAX_INT64
    }
  }

  datatype Setting = Setting(key: string, value: string)

  /** A client's line of a status answer: all its fields. */
  datatype Listing = Listing(client: Client, fields: seq<string>) {
    predicate Valid() {
      && client.Fits() && |fields| >= 11 && fields[0] == "CLIENT_LIST"
      && (forall i :: 0 <= i < |fields| ==> '\t' !in fields[i])
      && fields[1] == client.cn && fields[10] == client.cid
      && fields[5] == Decimal(client.bytes.rx) && fields[6] == Decimal(client.bytes.tx)
    }
  }

  /** What the daemon says at a time, what the panel does, and any other line. */
  datatype Telegram =
    | Arrives(again: bool, cid: string, kid: string, settings: seq<Setting>)
    | Departs(client: Client, settings: seq<Setting>)
    | Answers(listings: seq<Listing>)
    | Noise(text: string)
    | Panel(change: Input)
  {
    ghost predicate Valid(name: Naming) {
      match this
      case Arrives(_, cid, _, settings) => ',' !in cid && ValidSettings(settings)
      case Departs(client, settings) =>
        && client.Fits() && client.cid != "" && ',' !in client.cid && ValidSettings(settings)
        && Describes(client, EnvironmentIn(settings, |settings|))
      case Answers(listings) => forall i :: 0 <= i < |listings| ==> listings[i].Valid()
      case Noise(text) => Classify(name, text).Ignored?
      case Panel(change) => !change.Heard?
    }
  }

  ghost predicate ValidSettings(settings: seq<Setting>) {
    forall i :: 0 <= i < |settings| ==> '=' !in settings[i].key
  }

  function EnvironmentIn(settings: seq<Setting>, n: nat): Environment
    requires n <= |settings|
  {
    if n == 0 then map[] else EnvironmentIn(settings, n - 1)[settings[n - 1].key := settings[n - 1].value]
  }

  ghost predicate Describes(client: Client, env: Environment)
    requires client.Fits()
  {
    && Get(env, "common_name") == client.cn
    && Get(env, "bytes_received") == Decimal(client.bytes.rx)
    && Get(env, "bytes_sent") == Decimal(client.bytes.tx)
  }

  function SettingText(e: Setting): string {
    ">CLIENT:ENV," + (e.key + "=" + e.value)
  }

  function SettingTexts(settings: seq<Setting>): (texts: seq<string>)
    ensures |texts| == |settings| && forall i :: 0 <= i < |settings| ==> texts[i] == SettingText(settings[i])
  {
    seq(|settings|, i requires 0 <= i < |settings| => SettingText(settings[i]))
  }

  function ListingTexts(listings: seq<Listing>): (texts: seq<string>)
    ensures |texts| == |listings| && forall i :: 0 <= i < |listings| ==> texts[i] == Joined(listings[i].fields, '\t')
  {
    seq(|listings|, i requires 0 <= i < |listings| => Joined(listings[i].fields, '\t'))
  }

  function ArrivalText(again: bool, cid: string, kid: string): string {
    (if again then ">CLIENT:REAUTH," else ">CLIENT:CONNECT,") + (cid + "," + kid)
  }

  const BLOCK_END := ">CLIENT:ENV,END"

  /** The lines of a telegram. */
  function Texts(t: Telegram): seq<string> {
    match t
    case Arrives(again, cid, kid, settings) =>
      [ArrivalText(again, cid, kid)] + SettingTexts(settings) + [BLOCK_END]
    case Departs(client, settings) => [">CLIENT:DISCONNECT," + client.cid] + SettingTexts(settings) + [BLOCK_END]
    case Answers(listings) => ListingTexts(listings) + ["END"]
    case Noise(text) => [text]
    case Panel(_) => []
  }

  /** Text as the node takes it in. */
  function Taken(name: Naming, texts: seq<string>): (inputs: seq<Input>)
    ensures |inputs| == |texts| && forall i :: 0 <= i < |texts| ==> inputs[i] == Heard(Classify(name, texts[i]))
  {
    seq(|texts|, i requires 0 <= i < |texts| => Heard(Classify(name, texts[i])))
  }

  function Inputs(name: Naming, t: Telegram): seq<Input> {
    if t.Panel? then [t.change] else Taken(name, Texts(t))
  }

  function RowOf(name: Naming, client: Client): Row {
    Row(name(client.cid), name(client.cn), client.bytes)
  }

  function Rows(name: Naming, listings: seq<Listing>): (rows: seq<Row>)
    ensures |rows| == |listings| && forall i :: 0 <= i < |listings| ==> rows[i] == RowOf(name, listings[i].client)
  {
    seq(|listings|, i requires 0 <= i < |listings| => RowOf(name, listings[i].client))
  }

  /** What a telegram tells billing. */
  function Meant(name: Naming, t: Telegram): seq<Message> {
    match t
    case Departs(client, _) => [World.End(RowOf(name, client))]
    case Answers(listings) => [World.Status(Rows(name, listings))]
    case _ => []
  }

  function AllInputs(name: Naming, ts: seq<Telegram>, n: nat): seq<Input>
    requires n <= |ts|
  {
    if n == 0 then [] else AllInputs(name, ts, n - 1) + Inputs(name, ts[n - 1])
  }

  function AllMeant(name: Naming, ts: seq<Telegram>, n: nat): seq<Message>
    requires n <= |ts|
  {
    if n == 0 then [] else AllMeant(name, ts, n - 1) + Meant(name, ts[n - 1])
  }

  // ---------------------------------------------------------- how text is read

  lemma ArrivalRead(name: Naming, again: bool, cid: string, kid: string)
    requires ',' !in cid
    ensures Classify(name, ArrivalText(again, cid, kid)) == Connect(cid, kid)
  {
    var verb := if again then ">CLIENT:REAUTH" else ">CLIENT:CONNECT";
    var line := ArrivalText(again, cid, kid);
    assert line == verb + [','] + (cid + "," + kid);
    IndexOfBehind(verb, cid + "," + kid, ',');
    IndexOfBehind(cid, kid, ',');
    hide Before, Behind;
  }

  lemma DepartureRead(name: Naming, cid: string)
    requires ',' !in cid
    ensures Classify(name, ">CLIENT:DISCONNECT," + cid) == Disconnect(cid)
  {
    var line := ">CLIENT:DISCONNECT," + cid;
    assert line == ">CLIENT:DISCONNECT" + [','] + cid;
    assert line[8] == 'D';
    IndexOfBehind(">CLIENT:DISCONNECT", cid, ',');
    IndexOfNone(cid, ',');
    hide Before, Behind;
  }

  lemma EnvironmentRead(name: Naming, env: string)
    ensures Classify(name, ">CLIENT:ENV," + env)
         == if env == "END" then EnvEnd else if '=' in env then Env(Before(env, '='), Behind(env, '=')) else Ignored
  {
    var line := ">CLIENT:ENV," + env;
    assert line[8] == 'E' && ">CLIENT:CONNECT,"[8] == 'C' && ">CLIENT:REAUTH,"[8] == 'R' && ">CLIENT:DISCONNECT,"[8] == 'D';
    assert line[|">CLIENT:ENV,"|..] == env;
    hide Before, Behind, ParseStatusLine;
  }

  lemma SettingRead(name: Naming, e: Setting)
    requires '=' !in e.key
    ensures Classify(name, SettingText(e)) == Env(e.key, e.value)
  {
    hide Classify, Before, Behind;
    var env := e.key + "=" + e.value;
    EnvironmentRead(name, env);
    assert env[|e.key|] == '=';
    IndexOfBehind(e.key, e.value, '=');
  }

  lemma EndsRead(name: Naming)
    ensures Classify(name, BLOCK_END) == EnvEnd && Classify(name, "END") == StatusEnd
  {
    EnvironmentRead(name, "END");
    assert BLOCK_END == ">CLIENT:ENV," + "END";
    StatusEndRead(name);
    hide Classify;
  }

  lemma StatusEndRead(name: Naming)
    ensures Classify(name, "END") == StatusEnd
  {
    hide Before, Behind, ParseStatusLine;
  }

  lemma RowRead(name: Naming, rest: string)
    ensures var line := "CLIENT_LIST\t" + rest;
            Classify(name, line)
            == match ParseStatusLine(name, line) case Some(row) => StatusRow(row) case None => Ignored
  {
    assert ("CLIENT_LIST\t" + rest)[0] == 'C';
    hide Before, Behind, ParseStatusLine;
  }

  lemma ListingRead(name: Naming, l: Listing)
    requires l.Valid()
    ensures Classify(name, Joined(l.fields, '\t')) == StatusRow(RowOf(name, l.client))
  {
    var line := Joined(l.fields, '\t');
    hide Classify, Fields, ParseInt, Decimal;
    FieldsOfJoined(l.fields, '\t');
    ParsedIsPrinted(l.client.bytes.rx);
    ParsedIsPrinted(l.client.bytes.tx);
    assert line == "CLIENT_LIST\t" + Joined(l.fields[1..], '\t');
    RowRead(name, Joined(l.fields[1..], '\t'));
  }

  ghost predicate StartsWith(line: string, prefix: string) {
    exists rest: string :: prefix + rest == line
  }

  /** How often `c` is in `s`. */
  function Count(s: string, c: char): nat {
    if s == "" then 0 else (if s[0] == c then 1 else 0) + Count(s[1..], c)
  }

  lemma {:induction false} CountBehind(s: string, c: char)
    ensures Count(s, c) == if c in s then 1 + Count(Behind(s, c), c) else 0
  {
    if s != "" && s[0] == c {
      assert Behind(s, c) == s[1..];
    } else if s != "" {
      CountBehind(s[1..], c);
      assert c in s <==> c in s[1..];
      assert IndexOf(s, c) == 1 + IndexOf(s[1..], c);
      assert c in s ==> Behind(s, c) == Behind(s[1..], c);
    }
  }

  lemma {:induction false} FieldsCount(s: string, c: char)
    ensures |Fields(s, c)| == Count(s, c) + 1
    decreases |s|
  {
    CountBehind(s, c);
    if c in s {
      FieldsCount(Behind(s, c), c);
    }
  }

  lemma PrefixIs(line: string, prefix: string)
    ensures prefix <= line <==> StartsWith(line, prefix)
  {
    if prefix <= line {
      assert prefix + line[|prefix|..] == line;
    }
  }

  lemma KindByPrefix(name: Naming, line: string)
    ensures var kind := Classify(name, line);
            && (kind.Connect? <==> ">CLIENT:CONNECT," <= line || ">CLIENT:REAUTH," <= line)
            && (kind.Disconnect? <==> ">CLIENT:DISCONNECT," <= line)
            && (kind.EnvEnd? <==> line == ">CLIENT:ENV,END")
            && (kind.Env? <==> ">CLIENT:ENV," <= line && '=' in line[12..])
            && (kind.StatusRow? <==> "CLIENT_LIST\t" <= line && |Fields(line, '\t')| >= 11)
            && (kind.StatusEnd? <==> line == "END")
  {
    hide Before, Behind, Fields, ParseInt;
    assert ">CLIENT:CONNECT,"[8] == 'C' && ">CLIENT:REAUTH,"[8] == 'R' && ">CLIENT:DISCONNECT,"[8] == 'D' && ">CLIENT:ENV,"[8] == 'E';
    assert ">CLIENT:ENV,END"[8] == 'E' && ">CLIENT:ENV,END"[0] == '>' && "CLIENT_LIST\t"[0] == 'C' && "END"[0] == 'E';
    assert ">CLIENT:ENV," <= line ==> line == ">CLIENT:ENV," + line[12..];
    assert ">CLIENT:ENV," + "END" == ">CLIENT:ENV,END";
  }

  /** Which lines are which: nothing else opens or ends a block, and nothing else is a status line. */
  lemma KindsOfLines(name: Naming, line: string)
    ensures var kind := Classify(name, line);
            && (kind.Connect? <==> StartsWith(line, ">CLIENT:CONNECT,") || StartsWith(line, ">CLIENT:REAUTH,"))
            && (kind.Disconnect? <==> StartsWith(line, ">CLIENT:DISCONNECT,"))
            && (kind.EnvEnd? <==> line == ">CLIENT:ENV,END")
            && (kind.Env? <==> StartsWith(line, ">CLIENT:ENV,") && '=' in line[12..])
            && (kind.StatusRow? <==> StartsWith(line, "CLIENT_LIST\t") && Count(line, '\t') >= 10)
            && (kind.StatusEnd? <==> line == "END")
  {
    PrefixIs(line, ">CLIENT:CONNECT,");
    PrefixIs(line, ">CLIENT:REAUTH,");
    PrefixIs(line, ">CLIENT:DISCONNECT,");
    PrefixIs(line, ">CLIENT:ENV,");
    PrefixIs(line, "CLIENT_LIST\t");
    FieldsCount(line, '\t');
    hide StartsWith, Before, Behind, Fields, Count, ParseInt;
    KindByPrefix(name, line);
  }

  // --------------------------------------------------- how a telegram is heard

  lemma SettingHeard(name: Naming, s: State, e: Setting)
    requires s.pending.env.Some?
    ensures Next(s, Heard(Env(e.key, e.value))) == s.(pending := s.pending.(env := Some(s.pending.env.value[e.key := e.value])))
    ensures MessageOf(name, s, Env(e.key, e.value)) == []
  {
  }

  lemma {:induction false} SettingsPile(name: Naming, s: State, inputs: seq<Input>, p: Pending, settings: seq<Setting>, n: nat)
    requires n <= |settings| < |inputs| && p.env == Some(map[])
    requires After(s, inputs, 1) == s.(pending := p) && Messages(name, s, inputs, 1) == []
    requires forall i :: 0 <= i < |settings| ==> inputs[1 + i] == Heard(Env(settings[i].key, settings[i].value))
    ensures After(s, inputs, 1 + n) == s.(pending := p.(env := Some(EnvironmentIn(settings, n))))
    ensures Messages(name, s, inputs, 1 + n) == []
  {
    hide Next, MessageOf;
    if n > 0 {
      SettingsPile(name, s, inputs, p, settings, n - 1);
      SettingHeard(name, After(s, inputs, n), settings[n - 1]);
      OneMore(name, s, inputs, n);
    }
  }

  lemma OneMore(name: Naming, s: State, inputs: seq<Input>, n: nat)
    requires n < |inputs|
    ensures After(s, inputs, n + 1) == Next(After(s, inputs, n), inputs[n])
    ensures Messages(name, s, inputs, n + 1) == Messages(name, s, inputs, n) + MessageOf(name, After(s, inputs, n), LineOf(inputs[n]))
  {
    hide Next, MessageOf;
  }

  lemma HeaderHeard(name: Naming, s: State, inputs: seq<Input>, p: Pending)
    requires inputs != [] && LineOf(inputs[0]) in {Connect(p.cid, p.kid), Disconnect(p.cid)} && inputs[0].Heard?
    requires p == Pending(p.cid, if inputs[0].line.Connect? then p.kid else "", Some(map[]), inputs[0].line.Disconnect?)
    ensures After(s, inputs, 1) == s.(pending := p) && Messages(name, s, inputs, 1) == []
  {
    assert After(s, inputs, 0) == s;
  }

  lemma BlockEndHeard(s: State)
    requires s.statusBuf == []
    ensures AtRest(Next(s, Heard(EnvEnd)))
  {
    hide StoreAfter;
  }

  /** The inputs of a block: a header that left `p` pending, the settings, the end. */
  ghost predicate BlockInputs(name: Naming, s: State, inputs: seq<Input>, p: Pending, settings: seq<Setting>) {
    && |inputs| == |settings| + 2 && p.env == Some(map[])
    && After(s, inputs, 1) == s.(pending := p) && Messages(name, s, inputs, 1) == []
    && (forall i :: 0 <= i < |settings| ==> inputs[1 + i] == Heard(Env(settings[i].key, settings[i].value)))
    && inputs[1 + |settings|] == Heard(EnvEnd)
  }

  lemma BlockHeard(name: Naming, s: State, inputs: seq<Input>, p: Pending, settings: seq<Setting>)
    requires AtRest(s) && BlockInputs(name, s, inputs, p, settings)
    ensures var open := s.(pending := p.(env := Some(EnvironmentIn(settings, |settings|))));
            && AtRest(After(s, inputs, |inputs|))
            && Messages(name, s, inputs, |inputs|) == MessageOf(name, open, EnvEnd)
  {
    hide Next, MessageOf, After, Messages, EnvironmentIn;
    SettingsPile(name, s, inputs, p, settings, |settings|);
    OneMore(name, s, inputs, 1 + |settings|);
    BlockEndHeard(After(s, inputs, 1 + |settings|));
  }

  lemma SettingsRead(name: Naming, settings: seq<Setting>)
    requires ValidSettings(settings)
    ensures forall i :: 0 <= i < |settings| ==>
              Classify(name, SettingTexts(settings)[i]) == Env(settings[i].key, settings[i].value)
  {
    hide Classify, SettingText;
    forall i | 0 <= i < |settings| ensures Classify(name, SettingTexts(settings)[i]) == Env(settings[i].key, settings[i].value) {
      SettingRead(name, settings[i]);
    }
  }

  /** The inputs of a block's text. */
  lemma BlockTaken(name: Naming, header: string, settings: seq<Setting>)
    requires ValidSettings(settings)
    ensures var inputs := Taken(name, [header] + SettingTexts(settings) + [BLOCK_END]);
            && |inputs| == |settings| + 2 && inputs[0] == Heard(Classify(name, header))
            && (forall i :: 0 <= i < |settings| ==> inputs[1 + i] == Heard(Env(settings[i].key, settings[i].value)))
            && inputs[1 + |settings|] == Heard(EnvEnd)
  {
    var texts := [header] + SettingTexts(settings) + [BLOCK_END];
    hide Classify, SettingText;
    SettingsRead(name, settings);
    EndsRead(name);
    assert forall i :: 0 <= i < |settings| ==> texts[1 + i] == SettingTexts(settings)[i];
    assert texts[0] == header && texts[1 + |settings|] == BLOCK_END;
  }

  lemma ArrivalHeard(name: Naming, s: State, t: Telegram)
    requires AtRest(s) && t.Arrives? && t.Valid(name)
    ensures var inputs := Inputs(name, t);
            AtRest(After(s, inputs, |inputs|)) && Messages(name, s, inputs, |inputs|) == Meant(name, t)
  {
    var inputs, p := Inputs(name, t), Pending(t.cid, t.kid, Some(map[]), false);
    hide Classify, After, Messages, Taken, SettingTexts, ValidSettings, EnvironmentIn, AtRest, MessageOf;
    ArrivalRead(name, t.again, t.cid, t.kid);
    BlockTaken(name, ArrivalText(t.again, t.cid, t.kid), t.settings);
    hide ArrivalText;
    HeaderHeard(name, s, inputs, p);
    BlockHeard(name, s, inputs, p, t.settings);
    ReplyUnheard(name, s.(pending := p.(env := Some(EnvironmentIn(t.settings, |t.settings|)))));
  }

  lemma ReplyUnheard(name: Naming, s: State)
    requires !s.pending.disconnect
    ensures MessageOf(name, s, EnvEnd) == []
  {
  }

  /** The end of a block that describes a client is heard as that client's. */
  lemma EndHeard(name: Naming, s: State, client: Client, env: Environment)
    requires client.Fits() && client.cid != "" && Describes(client, env)
    requires s.pending == Pending(client.cid, "", Some(env), true)
    ensures MessageOf(name, s, EnvEnd) == [World.End(RowOf(name, client))]
  {
    ParsedIsPrinted(client.bytes.rx);
    ParsedIsPrinted(client.bytes.tx);
    hide ParseInt, Decimal, Get;
  }

  lemma DepartureHeard(name: Naming, s: State, t: Telegram)
    requires AtRest(s) && t.Departs? && t.Valid(name)
    ensures var inputs := Inputs(name, t);
            AtRest(After(s, inputs, |inputs|)) && Messages(name, s, inputs, |inputs|) == Meant(name, t)
  {
    var inputs, p := Inputs(name, t), Pending(t.client.cid, "", Some(map[]), true);
    hide Classify, After, Messages, Taken, SettingTexts, ValidSettings, EnvironmentIn, AtRest, MessageOf, Describes;
    DepartureRead(name, t.client.cid);
    BlockTaken(name, ">CLIENT:DISCONNECT," + t.client.cid, t.settings);
    HeaderHeard(name, s, inputs, p);
    BlockHeard(name, s, inputs, p, t.settings);
    var env := EnvironmentIn(t.settings, |t.settings|);
    EndHeard(name, s.(pending := p.(env := Some(env))), t.client, env);
  }

  lemma RowHeard(name: Naming, s: State, row: Row)
    ensures Next(s, Heard(StatusRow(row))) == s.(statusBuf := s.statusBuf + [row]) && MessageOf(name, s, StatusRow(row)) == []
  {
  }

  lemma {:induction false} ListingsPile(name: Naming, s: State, rows: seq<Row>, inputs: seq<Input>, n: nat)
    requires AtRest(s) && n <= |rows| <= |inputs| && forall i :: 0 <= i < |rows| ==> inputs[i] == Heard(StatusRow(rows[i]))
    ensures After(s, inputs, n) == s.(statusBuf := rows[..n]) && Messages(name, s, inputs, n) == []
  {
    hide Next, MessageOf;
    if n > 0 {
      ListingsPile(name, s, rows, inputs, n - 1);
      RowHeard(name, After(s, inputs, n - 1), rows[n - 1]);
      assert rows[..n] == rows[..n - 1] + [rows[n - 1]];
    }
  }

  lemma AnswerTaken(name: Naming, listings: seq<Listing>)
    requires forall i :: 0 <= i < |listings| ==> listings[i].Valid()
    ensures var inputs, rows := Taken(name, ListingTexts(listings) + ["END"]), Rows(name, listings);
            && |inputs| == |rows| + 1 && inputs[|rows|] == Heard(StatusEnd)
            && forall i :: 0 <= i < |rows| ==> inputs[i] == Heard(StatusRow(rows[i]))
  {
    var texts, rows := ListingTexts(listings) + ["END"], Rows(name, listings);
    hide Classify, Joined;
    EndsRead(name);
    forall i | 0 <= i < |rows| ensures Classify(name, texts[i]) == StatusRow(rows[i]) {
      assert texts[i] == ListingTexts(listings)[i];
      ListingRead(name, listings[i]);
    }
    assert texts[|rows|] == "END";
  }

  lemma AnswerEndHeard(name: Naming, s: State)
    ensures Next(s, Heard(StatusEnd)) == s.(lastStatus := s.statusBuf, statusBuf := [])
    ensures MessageOf(name, s, StatusEnd) == [World.Status(s.statusBuf)]
  {
  }

  lemma AnswerHeard(name: Naming, s: State, t: Telegram)
    requires AtRest(s) && t.Answers? && t.Valid(name)
    ensures var inputs := Inputs(name, t);
            AtRest(After(s, inputs, |inputs|)) && Messages(name, s, inputs, |inputs|) == Meant(name, t)
  {
    var inputs, rows := Inputs(name, t), Rows(name, t.listings);
    hide Classify, Taken, ListingTexts, After, Messages, Next, MessageOf;
    AnswerTaken(name, t.listings);
    ListingsPile(name, s, rows, inputs, |rows|);
    assert rows[..|rows|] == rows;
    OneMore(name, s, inputs, |rows|);
    AnswerEndHeard(name, After(s, inputs, |rows|));
  }

  /** Other lines and user changes are not heard, and leave nothing half-read. */
  lemma OtherHeard(name: Naming, s: State, t: Telegram)
    requires AtRest(s) && (t.Noise? || t.Panel?) && t.Valid(name)
    ensures var inputs := Inputs(name, t);
            AtRest(After(s, inputs, |inputs|)) && Messages(name, s, inputs, |inputs|) == Meant(name, t)
  {
    var inputs := Inputs(name, t);
    assert |inputs| == 1 && LineOf(inputs[0]).Ignored?;
    assert After(s, inputs, 0) == s;
    hide Classify, Applied, Replaced;
  }

  lemma TelegramHeard(name: Naming, s: State, t: Telegram)
    requires AtRest(s) && t.Valid(name)
    ensures var inputs := Inputs(name, t);
            AtRest(After(s, inputs, |inputs|)) && Messages(name, s, inputs, |inputs|) == Meant(name, t)
  {
    hide After, Messages, Inputs, Meant;
    match t
    case Arrives(_, _, _, _) => ArrivalHeard(name, s, t);
    case Departs(_, _) => DepartureHeard(name, s, t);
    case Answers(_) => AnswerHeard(name, s, t);
    case _ => OtherHeard(name, s, t);
  }

  // ------------------------------------------------------------ whole streams

  lemma {:induction false} RunConcat(name: Naming, s: State, a: seq<Input>, b: seq<Input>, n: nat)
    requires n <= |b|
    ensures After(s, a + b, |a| + n) == After(After(s, a, |a|), b, n)
    ensures Messages(name, s, a + b, |a| + n) == Messages(name, s, a, |a|) + Messages(name, After(s, a, |a|), b, n)
    decreases n
  {
    hide Next, MessageOf;
    if n == 0 {
      MessagesPrefix(name, s, a, b, |a|);
    } else {
      RunConcat(name, s, a, b, n - 1);
      assert (a + b)[|a| + n - 1] == b[n - 1];
    }
  }

  lemma {:induction false} MessagesPrefix(name: Naming, s: State, a: seq<Input>, b: seq<Input>, n: nat)
    requires n <= |a|
    ensures After(s, a + b, n) == After(s, a, n) && Messages(name, s, a + b, n) == Messages(name, s, a, n)
  {
    hide Next, MessageOf;
    if n > 0 {
      MessagesPrefix(name, s, a, b, n - 1);
    }
  }

  /**
   * A stream of text, with connects, disconnects, status answers, other lines and
   * user changes in any order, is heard by billing as the session ends and status
   * answers that the daemon meant, in that order and with its counters.
   */
  lemma {:induction false} StreamIsHeard(name: Naming, s: State, ts: seq<Telegram>, n: nat)
    requires n <= |ts| && AtRest(s) && forall i :: 0 <= i < |ts| ==> ts[i].Valid(name)
    ensures var inputs := AllInputs(name, ts, n);
            AtRest(After(s, inputs, |inputs|)) && Messages(name, s, inputs, |inputs|) == AllMeant(name, ts, n)
  {
    hide AtRest, Inputs, Meant, After, Messages;
    if n == 0 {
      NothingHeard(name, s);
    } else {
      StreamIsHeard(name, s, ts, n - 1);
      var before, next := AllInputs(name, ts, n - 1), Inputs(name, ts[n - 1]);
      RunConcat(name, s, before, next, |next|);
      TelegramHeard(name, After(s, before, |before|), ts[n - 1]);
    }
  }

  lemma NothingHeard(name: Naming, s: State)
    ensures After(s, [], 0) == s && Messages(name, s, [], 0) == []
  {
  }
}
