/** The text protocol between client and daemon: tokens, commands, confirmation, and response lines. */
module IpcProtocol {
  import opened Base
  import opened Text

  // ---------------------------------------------------------------- tokens

  ghost predicate IsWord(word: string) {
    word != "" && forall c <- word :: !IsSpace(c)
  }

  /** The length of the word the text starts with. */
  function WordLength(text: string): (n: nat)
    ensures n <= |text| && forall i :: 0 <= i < n ==> !IsSpace(text[i])
    ensures n < |text| ==> IsSpace(text[n])
  {
    if text == "" || IsSpace(text[0]) then 0 else 1 + WordLength(text[1..])
  }

  /** The maximal whitespace-free pieces of the text, in order. */
  function Words(text: string): seq<string>
    decreases |text|
  {
    if text == "" then []
    else if IsSpace(text[0]) then Words(text[1..])
    else [text[..WordLength(text)]] + Words(text[WordLength(text)..])
  }

  lemma WordFirst(word: string, rest: string)
    requires IsWord(word) && (rest == "" || IsSpace(rest[0]))
    ensures Words(word + rest) == [word] + Words(rest)
  {
    var text := word + rest;
    assert forall i :: 0 <= i < |word| ==> text[i] == word[i] && word[i] in word && !IsSpace(text[i]);
    assert rest != "" ==> text[|word|] == rest[0];
    var n := WordLength(text);
    assert text[..n] == word && text[n..] == rest;
  }

  lemma {:induction false} WordsAreWords(text: string)
    ensures forall word <- Words(text) :: IsWord(word)
    decreases |text|
  {
    if text != "" {
      var n := WordLength(text);
      WordsAreWords(if IsSpace(text[0]) then text[1..] else text[n..]);
      assert forall c <- text[..n] :: !IsSpace(c);
    }
  }

  /** What one character does to the word being collected. */
  lemma WordsStep(cur: string, text: string, i: nat)
    requires i < |text| && (cur == "" || IsWord(cur))
    ensures !IsSpace(text[i]) ==>
              IsWord(cur + [text[i]]) && Words(cur + text[i..]) == Words(cur + [text[i]] + text[i + 1..])
    ensures IsSpace(text[i]) ==>
              Words(cur + text[i..]) == (if cur == "" then [] else [cur]) + Words("" + text[i + 1..])
  {
    assert cur + text[i..] == cur + [text[i]] + text[i + 1..];
    if IsSpace(text[i]) {
      assert "" + text[i + 1..] == text[i + 1..] && text[i..][1..] == text[i + 1..];
      if cur == "" {
        assert cur + text[i..] == text[i..];
      } else {
        WordFirst(cur, text[i..]);
      }
    }
  }

  /** What has been collected, and what is still to be split, make up the whole. */
  ghost predicate Splitting(text: string, i: nat, tokens: seq<string>, cur: string) {
    i <= |text| && (cur == "" || IsWord(cur)) && Words(text) == tokens + Words(cur + text[i..])
  }

  lemma SplitStep(text: string, i: nat, tokens: seq<string>, cur: string)
    requires Splitting(text, i, tokens, cur) && i < |text|
    ensures !IsSpace(text[i]) ==> Splitting(text, i + 1, tokens, cur + [text[i]])
    ensures IsSpace(text[i]) ==> Splitting(text, i + 1, if cur == "" then tokens else tokens + [cur], "")
  {
    WordsStep(cur, text, i);
    if IsSpace(text[i]) {
      ConcatAssociative(tokens, if cur == "" then [] else [cur], Words("" + text[i + 1..]));
    }
  }

  lemma SplitEnd(text: string, tokens: seq<string>, cur: string)
    requires Splitting(text, |text|, tokens, cur)
    ensures Words(text) == if cur == "" then tokens else tokens + [cur]
  {
    assert cur + text[|text|..] == cur;
    if cur != "" {
      WordFirst(cur, "");
      assert cur + "" == cur;
    }
  }

  method SplitTokens(text: string) returns (tokens: seq<string>)
    ensures tokens == Words(text)
  {
    tokens := [];
    var cur := "";
    assert "" + text[0..] == text;
    for i := 0 to |text|
      invariant Splitting(text, i, tokens, cur)
    {
      SplitStep(text, i, tokens, cur);
      if IsSpace(text[i]) {
        if cur != "" {
          tokens := tokens + [cur];
          cur := "";
        }
      } else {
        cur := cur + [text[i]];
      }
    }
    SplitEnd(text, tokens, cur);
    if cur != "" {
      tokens := tokens + [cur];
    }
  }

  /** The command line the client builds from its arguments. */
  function JoinTokens(tokens: seq<string>): string {
    if tokens == [] then ""
    else if |tokens| == 1 then tokens[0]
    else tokens[0] + " " + JoinTokens(tokens[1..])
  }

  /** Joining and splitting give the arguments back exactly when every one of them is a word. */
  lemma JoinSplit(tokens: seq<string>)
    ensures Words(JoinTokens(tokens)) == tokens <==> forall token <- tokens :: IsWord(token)
  {
    WordsAreWords(JoinTokens(tokens));
    if forall token <- tokens :: IsWord(token) {
      JoinSplitWords(tokens);
    }
  }

  lemma SpaceFirst(text: string)
    ensures Words(" " + text) == Words(text)
  {
    assert (" " + text)[1..] == text;
  }

  lemma {:induction false} JoinSplitWords(tokens: seq<string>)
    requires forall token <- tokens :: IsWord(token)
    ensures Words(JoinTokens(tokens)) == tokens
  {
    if |tokens| == 1 {
      WordFirst(tokens[0], "");
      assert tokens[0] + "" == tokens[0];
    } else if tokens != [] {
      var joined := JoinTokens(tokens[1..]);
      JoinSplitWords(tokens[1..]);
      WordFirst(tokens[0], " " + joined);
      SpaceFirst(joined);
      assert JoinTokens(tokens) == tokens[0] + (" " + joined);
      assert tokens == [tokens[0]] + tokens[1..];
    }
  }

  lemma {:induction false} WordsAppend(line: string, word: string)
    requires IsWord(word)
    ensures Words(line + " " + word) == Words(line) + [word]
    decreases |line|
  {
    var tail := " " + word;
    assert line + " " + word == line + tail;
    if line == "" {
      assert line + tail == tail && tail[1..] == word;
      WordFirst(word, "");
      assert word + "" == word;
    } else if IsSpace(line[0]) {
      assert (line + tail)[1..] == line[1..] + " " + word;
      WordsAppend(line[1..], word);
    } else {
      var n := WordLength(line);
      assert IsWord(line[..n]);
      WordsAppend(line[n..], word);
      assert line + tail == line[..n] + (line[n..] + tail);
      assert line[n..] + " " + word == line[n..] + tail;
      WordFirst(line[..n], line[n..] + tail);
    }
  }

  // ---------------------------------------------------------------- commands

  datatype CommandType =
    | Devices | Info | Battery | Anc | Ambient | EqGet | EqPreset | EqCustom | Dsee | AutoPowerOff
    | SpeakToChat | AdaptiveVolume | Status | Reset | FactoryReset | Raw | Unknown

  datatype Command = Command(kind: CommandType, args: seq<string>, raw: string)

  const CONFIRM_ARG := "--yes"

  /** sub is the lower-case second token, empty if there is none. */
  function KindOf(verb: string, sub: string): CommandType {
    if verb == "devices" then Devices
    else if verb == "info" then Info
    else if verb == "battery" then Battery
    else if verb == "anc" then Anc
    else if verb == "ambient" then Ambient
    else if verb == "eq" then
      if sub == "get" then EqGet
      else if sub == "preset" then EqPreset
      else if sub == "custom" then EqCustom
      else EqPreset
    else if verb == "dsee" then Dsee
    else if verb == "autopoweroff" || verb == "apo" then AutoPowerOff
    else if verb == "speaktochat" then SpeakToChat
    else if verb == "adaptivevolume" then AdaptiveVolume
    else if verb == "status" then Status
    else if verb == "reset" then Reset
    else if verb == "factoryreset" then FactoryReset
    else if verb == "raw" then Raw
    else Unknown
  }

  function ParseCommand(line: string): Command {
    var tokens := Words(line);
    if tokens == [] then Command(Unknown, [], line)
    else
      var sub := if |tokens| > 1 then ToLower(tokens[1]) else "";
      Command(KindOf(ToLower(tokens[0]), sub), tokens[1..], line)
  }

  predicate NeedsConfirmation(cmd: Command) {
    cmd.kind == FactoryReset && forall arg <- cmd.args :: ToLower(arg) != CONFIRM_ARG
  }

  lemma KindIgnoresConfirmation(verb: string)
    ensures KindOf(verb, "") == KindOf(verb, CONFIRM_ARG)
  {
  }

  lemma ConfirmArgIsLower()
    ensures ToLower(CONFIRM_ARG) == CONFIRM_ARG && IsWord(CONFIRM_ARG)
  {
  }

  /**
    Appending the confirmation keeps the command, adds one argument and is what the daemon insists on.
   */
  lemma {:induction false} ConfirmationAppended(line: string)
    requires Words(line) != []
    ensures var before := ParseCommand(line); var after := ParseCommand(line + " " + CONFIRM_ARG);
            && after.kind == before.kind && after.args == before.args + [CONFIRM_ARG]
            && !NeedsConfirmation(after)
  {
    ConfirmArgIsLower();
    WordsAppend(line, CONFIRM_ARG);
    var before, after := Words(line), Words(line + " " + CONFIRM_ARG);
    assert after[0] == before[0] && after[1..] == before[1..] + [CONFIRM_ARG];
    assert |before| > 1 ==> after[1] == before[1];
    KindIgnoresConfirmation(ToLower(before[0]));
    assert CONFIRM_ARG in after[1..];
  }

  // ---------------------------------------------------------------- responses

  datatype Response = Response(success: bool, message: string, data: string)

  const RECORD_SEPARATOR: char := '\U{1e}'

  function Replace(text: string, from: char, to: char): (r: string)
    ensures |r| == |text|
    ensures forall i :: 0 <= i < |text| ==> r[i] == if text[i] == from then to else text[i]
  {
    seq(|text|, i requires 0 <= i < |text| => if text[i] == from then to else text[i])
  }

  function StatusWord(success: bool): (s: string)
    ensures '|' !in s && '\n' !in s && (s == "OK" <==> success)
  {
    if success then "OK" else "ERR"
  }

  function SerializeResponse(r: Response): string {
    StatusWord(r.success) + "|" + r.message + "|" + Replace(r.data, '\n', RECORD_SEPARATOR) + "\n"
  }

  function StripLineEnd(line: string): string {
    if line != "" && (line[|line| - 1] == '\n' || line[|line| - 1] == '\r')
    then StripLineEnd(line[..|line| - 1]) else line
  }

  /** A line without its line end: status, message and data, separated by bars. */
  function Fields(line: string): Response {
    var first := IndexOfChar(line, '|');
    if first == |line| then Response(false, line, "")
    else
      var rest := line[first + 1..];
      var second := IndexOfChar(rest, '|');
      if second == |rest| then Response(line[..first] == "OK", rest, "")
      else Response(line[..first] == "OK", rest[..second], Replace(rest[second + 1..], RECORD_SEPARATOR, '\n'))
  }

  function ParseResponse(text: string): Response {
    Fields(StripLineEnd(text))
  }

  method ReplaceChars(text: string, from: char, to: char) returns (r: string)
    ensures r == Replace(text, from, to)
  {
    r := text;
    for i := 0 to |text|
      invariant |r| == |text| && r[i..] == text[i..]
      invariant forall k :: 0 <= k < i ==> r[k] == if text[k] == from then to else text[k]
    {
      assert r[i] == r[i..][0] == text[i..][0];
      if r[i] == from {
        r := r[i := to];
      }
      assert r[i + 1..] == text[i + 1..];
    }
  }

  method Serialize(r: Response) returns (line: string)
    ensures line == SerializeResponse(r)
  {
    var encoded := ReplaceChars(r.data, '\n', RECORD_SEPARATOR);
    line := StatusWord(r.success) + "|" + r.message + "|" + encoded + "\n";
  }

  method Strip(text: string) returns (line: string)
    ensures line == StripLineEnd(text)
  {
    line := text;
    while line != "" && (line[|line| - 1] == '\n' || line[|line| - 1] == '\r')
      invariant StripLineEnd(line) == StripLineEnd(text)
      decreases |line|
    {
      line := line[..|line| - 1];
    }
  }

  method Parse(text: string) returns (r: Response)
    ensures r == ParseResponse(text)
  {
    var line := Strip(text);
    var first := Find(line, '|');
    if first == |line| {
      return Response(false, line, "");
    }
    var status := line[..first];
    var rest := line[first + 1..];
    var second := Find(rest, '|');
    if second == |rest| {
      return Response(status == "OK", rest, "");
    }
    var data := ReplaceChars(rest[second + 1..], RECORD_SEPARATOR, '\n');
    return Response(status == "OK", rest[..second], data);
  }

  /** The responses that survive serialisation. */
  predicate Portable(r: Response) {
    && '|' !in r.message
    && RECORD_SEPARATOR !in r.data
    && (r.data != "" ==> r.data[|r.data| - 1] != '\r')
  }

  lemma IndexAfter(head: string, c: char, tail: string)
    requires c !in head
    ensures IndexOfChar(head + [c] + tail, c) == |head|
    ensures (head + [c] + tail)[..|head|] == head && (head + [c] + tail)[|head| + 1..] == tail
  {
    var text := head + [c] + tail;
    assert text[..|head|] == head;
    IndexOfCharUnique(text, c, |head|);
  }

  lemma FieldsOf(status: string, message: string, data: string)
    requires '|' !in status && '|' !in message
    ensures Fields(status + "|" + (message + "|" + data)) ==
            Response(status == "OK", message, Replace(data, RECORD_SEPARATOR, '\n'))
  {
    IndexAfter(status, '|', message + "|" + data);
    IndexAfter(message, '|', data);
  }

  /** However a serialised line is stripped, at least everything up to the second bar stays. */
  lemma StripKeepsMessage(status: string, message: string, data: string) returns (kept: string)
    ensures kept <= data && |kept| <= |data|
    ensures StripLineEnd(status + "|" + (message + "|" + data)) == status + "|" + (message + "|" + kept)
    ensures data != "" && data[|data| - 1] == '\r' ==> |kept| < |data|
    ensures data == "" || (data[|data| - 1] != '\n' && data[|data| - 1] != '\r') ==> kept == data
    decreases |data|
  {
    var line := status + "|" + (message + "|" + data);
    assert line[|line| - 1] == if data == "" then '|' else data[|data| - 1];
    if data != "" && (data[|data| - 1] == '\n' || data[|data| - 1] == '\r') {
      var shorter := data[..|data| - 1];
      assert line[..|line| - 1] == status + "|" + (message + "|" + shorter);
      kept := StripKeepsMessage(status, message, shorter);
    } else {
      kept := data;
    }
  }

  lemma StripNewline(line: string)
    ensures StripLineEnd(line + "\n") == StripLineEnd(line)
  {
    assert (line + "\n")[..|line|] == line;
  }

  lemma DataRoundTrip(data: string)
    ensures Replace(Replace(data, '\n', RECORD_SEPARATOR), RECORD_SEPARATOR, '\n') == data <==>
            RECORD_SEPARATOR !in data
  {
    var back := Replace(Replace(data, '\n', RECORD_SEPARATOR), RECORD_SEPARATOR, '\n');
    assert forall i :: 0 <= i < |data| ==> (back[i] == data[i] <==> data[i] != RECORD_SEPARATOR);
  }

  lemma FieldsRoundTrip(status: string, message: string, data: string)
    requires '|' !in status
    ensures var line := status + "|" + (message + "|" + Replace(data, '\n', RECORD_SEPARATOR));
            Fields(StripLineEnd(line)) == Response(status == "OK", message, data) <==>
            Portable(Response(status == "OK", message, data))
  {
    var encoded := Replace(data, '\n', RECORD_SEPARATOR);
    EncodedEnd(data);
    var kept := StripKeepsMessage(status, message, encoded);
    if '|' in message {
      assert status + "|" + (message + "|" + kept) == status + "|" + (message + ("|" + kept));
      ShortMessage(status, message, "|" + kept);
    } else {
      FieldsKept(status, message, data, kept);
    }
  }

  lemma FieldsKept(status: string, message: string, data: string, kept: string)
    requires '|' !in status && '|' !in message
    requires data != "" && data[|data| - 1] == '\r' ==> |kept| < |data|
    requires data == "" || data[|data| - 1] != '\r' ==> kept == Replace(data, '\n', RECORD_SEPARATOR)
    ensures Fields(status + "|" + (message + "|" + kept)) == Response(status == "OK", message, data) <==>
            Portable(Response(status == "OK", message, data))
  {
    FieldsOf(status, message, kept);
    KeptData(data, kept);
  }

  lemma EncodedEnd(data: string)
    ensures var encoded := Replace(data, '\n', RECORD_SEPARATOR);
            && (data == "" <==> encoded == "")
            && (data != "" ==> encoded[|data| - 1] != '\n')
            && (data != "" ==> (encoded[|data| - 1] == '\r' <==> data[|data| - 1] == '\r'))
  {
  }

  lemma KeptData(data: string, kept: string)
    requires var encoded := Replace(data, '\n', RECORD_SEPARATOR);
             && (data != "" && data[|data| - 1] == '\r' ==> |kept| < |data|)
             && (data == "" || data[|data| - 1] != '\r' ==> kept == encoded)
    ensures Replace(kept, RECORD_SEPARATOR, '\n') == data <==>
            RECORD_SEPARATOR !in data && (data != "" ==> data[|data| - 1] != '\r')
  {
    DataRoundTrip(data);
  }

  /** Exactly the portable responses come back as they were sent. */
  lemma ResponseRoundTrip(r: Response)
    ensures ParseResponse(SerializeResponse(r)) == r <==> Portable(r)
  {
    var status := StatusWord(r.success);
    var line := status + "|" + (r.message + "|" + Replace(r.data, '\n', RECORD_SEPARATOR));
    assert SerializeResponse(r) == line + "\n";
    StripNewline(line);
    FieldsRoundTrip(status, r.message, r.data);
  }

  /** A bar in the message cuts it short, whatever follows. */
  lemma ShortMessage(status: string, message: string, rest: string)
    requires '|' !in status && '|' in message
    ensures |Fields(status + "|" + (message + rest)).message| < |message|
  {
    var m := IndexOfChar(message, '|');
    assert message + rest == message[..m] + "|" + (message[m + 1..] + rest);
    IndexAfter(status, '|', message + rest);
    IndexAfter(message[..m], '|', message[m + 1..] + rest);
  }

  /** What a client makes of the first line of a response stream. */
  function FirstLine(stream: string): string {
    stream[..IndexOfChar(stream, '\n')]
  }

  /**
    Through the socket, where the client reads one line, exactly the portable responses with a one-line
    message come back as they were sent.
   */
  lemma ResponseThroughSocket(r: Response)
    ensures ParseResponse(FirstLine(SerializeResponse(r))) == r <==> Portable(r) && '\n' !in r.message
  {
    if '\n' in r.message {
      FirstLineShort(StatusWord(r.success), r.message, Replace(r.data, '\n', RECORD_SEPARATOR));
    } else {
      var line := StatusWord(r.success) + "|" + r.message + "|" + Replace(r.data, '\n', RECORD_SEPARATOR);
      assert SerializeResponse(r) == line + "\n" + "";
      IndexAfter(line, '\n', "");
      StripNewline(line);
      ResponseRoundTrip(r);
    }
  }

  lemma FirstLineShort(status: string, message: string, data: string)
    requires '|' !in status && '\n' !in status && '\n' in message
    ensures |ParseResponse(FirstLine(status + "|" + message + "|" + data + "\n")).message| < |message|
  {
    var m := IndexOfChar(message, '\n');
    var head := status + "|" + message[..m];
    var tail := message[m + 1..] + "|" + data + "\n";
    assert status + "|" + message + "|" + data + "\n" == head + "\n" + tail;
    IndexAfter(head, '\n', tail);
    TruncatedMessage(status, message[..m]);
  }

  lemma TruncatedMessage(status: string, part: string)
    requires '|' !in status
    ensures |ParseResponse(status + "|" + part).message| <= |part|
  {
    var line := status + "|" + part;
    StripPrefix(status, part);
    var kept := StripLineEnd(line)[|status| + 1..];
    IndexAfter(status, '|', kept);
  }

  lemma {:induction false} StripPrefix(status: string, part: string)
    requires '|' !in status
    ensures var kept := StripLineEnd(status + "|" + part);
            |status| + 1 <= |kept| <= |status| + 1 + |part| && kept == status + "|" + kept[|status| + 1..]
    decreases |part|
  {
    var line := status + "|" + part;
    assert line[|line| - 1] == if part == "" then '|' else part[|part| - 1];
    if part != "" && (part[|part| - 1] == '\n' || part[|part| - 1] == '\r') {
      assert line[..|line| - 1] == status + "|" + part[..|part| - 1];
      StripPrefix(status, part[..|part| - 1]);
    }
  }
}
