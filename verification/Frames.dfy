/** `message` and `client::send`: one head character and a body of at most 82, framed in 84 bytes that
    are copied into a buffer used again and again. */
module Frames {

  datatype HeadEnum =
    | Connect | Load | Start | Order | Finish | UnderSale | TotalData | Part | PartData | PartKey
    | FinalPart | FinalAns | Unknown

  const MAX_HEAD_LENGTH: nat := 1
  const MAX_BODY_LENGTH: nat := 82
  const BUFFER_SIZE: nat := 84

  function HeadChar(e: HeadEnum): char {
    match e
    case Load => 'l'
    case Start => 's'
    case Order => 'o'
    case Connect => 'c'
    case Finish => 'f'
    case UnderSale => 'u'
    case TotalData => 't'
    case Part => 'p'
    case PartData => 'd'
    case Unknown => 'x'
    case PartKey => 'k'
    case FinalPart => 'P'
    case FinalAns => 'A'
  }

  /** The C string that starts a byte sequence. */
  function CString(s: seq<char>): (r: string)
    ensures |r| <= |s| && r == s[..|r|] && '\0' !in r
    ensures |r| < |s| ==> s[|r|] == '\0'
  {
    if s == [] || s[0] == '\0' then "" else [s[0]] + CString(s[1..])
  }

  lemma {:induction false} CStringOf(t: string, rest: seq<char>)
    requires '\0' !in t && (rest == [] || rest[0] == '\0')
    ensures CString(t + rest) == t
  {
    if t == "" {
      assert t + rest == rest;
    } else {
      assert (t + rest)[0] == t[0] && (t + rest)[1..] == t[1..] + rest;
      assert t == [t[0]] + t[1..];
      CStringOf(t[1..], rest);
    }
  }

  method MemsetZero(a: array<char>)
    modifies a
    ensures forall i :: 0 <= i < a.Length ==> a[i] == '\0'
  {
    for i := 0 to a.Length
      invariant forall j :: 0 <= j < i ==> a[j] == '\0'
    {
      a[i] := '\0';
    }
  }

  /** `strcpy` to `dst + at`: the text, a terminator, and nothing else. */
  method Strcpy(dst: array<char>, at: nat, s: string)
    requires at + |s| < dst.Length
    modifies dst
    ensures dst[..] == old(dst[..at]) + s + ['\0'] + old(dst[at + |s| + 1..])
  {
    for i := 0 to |s|
      invariant forall j :: 0 <= j < i ==> dst[at + j] == s[j]
      invariant forall j :: 0 <= j < at || at + i <= j < dst.Length ==> dst[j] == old(dst[j])
    {
      dst[at + i] := s[i];
    }
    dst[at + |s|] := '\0';
    assert dst[at..at + |s|] == s && dst[..at] == old(dst[..at]);
    assert dst[at + |s| + 1..] == old(dst[at + |s| + 1..]);
    assert dst[..] == dst[..at] + dst[at..at + |s|] + [dst[at + |s|]] + dst[at + |s| + 1..];
  }

  /** The second loop of the parsing constructor: copies up to and including the terminator. */
  method CopyBody(s: array<char>, body: array<char>, sendMsg: array<char>)
    requires s.Length == sendMsg.Length == BUFFER_SIZE && body.Length == MAX_BODY_LENGTH + 1
    requires s != body && s != sendMsg && body != sendMsg
    requires forall j :: 0 <= j < body.Length ==> body[j] == '\0'
    requires forall j :: 1 <= j < sendMsg.Length ==> sendMsg[j] == '\0'
    modifies body, sendMsg
    ensures CString(body[..]) == CString(s[1..1 + MAX_BODY_LENGTH]) && body[MAX_BODY_LENGTH] == '\0'
    ensures sendMsg[..] == [old(sendMsg[0])] + body[..]
  {
    ghost var field := s[1..1 + MAX_BODY_LENGTH];
    ghost var text := CString(field);
    var i := 0;
    while i < MAX_BODY_LENGTH
      invariant 0 <= i <= MAX_BODY_LENGTH && i <= |text|
      invariant forall j :: 0 <= j < i ==> body[j] == field[j]
      invariant forall j :: i <= j < body.Length ==> body[j] == '\0'
      invariant sendMsg[0] == old(sendMsg[0])
      invariant forall j :: 1 <= j < sendMsg.Length ==> sendMsg[j] == body[j - 1]
    {
      sendMsg[i + MAX_HEAD_LENGTH] := s[i + MAX_HEAD_LENGTH];
      body[i] := s[i + MAX_HEAD_LENGTH];
      assert body[i] == field[i];
      if s[i + MAX_HEAD_LENGTH] == '\0' {
        assert i == |text| by { TerminatorAt(field, i); }
        break;
      }
      TerminatorAt(field, i);
      i := i + 1;
    }
    CopiedText(field, body[..], text);
  }

  lemma CopiedText(field: seq<char>, body: seq<char>, text: string)
    requires text == CString(field) && |field| <= |body| && |text| < |body|
    requires forall j :: 0 <= j < |text| ==> body[j] == field[j]
    requires body[|text|] == '\0'
    ensures CString(body) == text
  {
    assert body == text + body[|text|..];
    CStringOf(text, body[|text|..]);
  }

  lemma TerminatorAt(s: seq<char>, i: nat)
    requires i < |s| && i <= |CString(s)|
    ensures s[i] == '\0' <==> i == |CString(s)|
  {
    var t := CString(s);
    if i < |t| {
      assert t[i] == s[i] && t[i] in t;
    }
  }

  class Message {
    const head: array<char>
    const body: array<char>
    const sendMsg: array<char>

    ghost predicate Valid()
      reads this, head, body, sendMsg
    {
      && head.Length == MAX_HEAD_LENGTH + 1 && body.Length == MAX_BODY_LENGTH + 1
      && sendMsg.Length == MAX_HEAD_LENGTH + MAX_BODY_LENGTH + 1
      && head != body && head != sendMsg && body != sendMsg
      && head[MAX_HEAD_LENGTH] == '\0' && body[MAX_BODY_LENGTH] == '\0'
    }

    ghost function Head(): string
      reads this, head
    {
      CString(head[..])
    }

    ghost function Body(): string
      reads this, body
    {
      CString(body[..])
    }

    ghost function Bytes(): string
      reads this, sendMsg
    {
      CString(sendMsg[..])
    }

    /** `message(headEnum, const char *)`. */
    constructor Make(e: HeadEnum, text: string)
      requires |text| <= 82 && '\0' !in text
      ensures Valid() && fresh(head) && fresh(body) && fresh(sendMsg)
      ensures Head() == [HeadChar(e)] && Body() == text && Bytes() == [HeadChar(e)] + text
    {
      head := new char[MAX_HEAD_LENGTH + 1];
      body := new char[MAX_BODY_LENGTH + 1];
      sendMsg := new char[MAX_HEAD_LENGTH + MAX_BODY_LENGTH + 1];
      new;
      MemsetZero(head);
      MemsetZero(body);
      MemsetZero(sendMsg);
      SetHead(e);
      SetBody(text);
      CStringOf([HeadChar(e)], ['\0']);
      assert head[..] == [HeadChar(e)] + ['\0'];
    }

    /** The `switch` of `setHead`. */
    method SwitchHead(e: HeadEnum)
      requires Valid()
      modifies head
      ensures head[0] == HeadChar(e) && head[1] == '\0'
    {
      match e {
        case Load => Strcpy(head, 0, "l");
        case Start => Strcpy(head, 0, "s");
        case Order => Strcpy(head, 0, "o");
        case Connect => Strcpy(head, 0, "c");
        case Finish => Strcpy(head, 0, "f");
        case UnderSale => Strcpy(head, 0, "u");
        case TotalData => Strcpy(head, 0, "t");
        case Part => Strcpy(head, 0, "p");
        case PartData => Strcpy(head, 0, "d");
        case PartKey => Strcpy(head, 0, "k");
        case FinalPart => Strcpy(head, 0, "P");
        case FinalAns => Strcpy(head, 0, "A");
        case Unknown => Strcpy(head, 0, "x");
      }
      assert head[..][0] == HeadChar(e) && head[..][1] == '\0';
    }

    /** The character is looked up in a `switch`, copied into the head, and from there in front of the bytes. */
    method SetHead(e: HeadEnum)
      requires Valid()
      modifies head, sendMsg
      ensures Valid()
      ensures head[0] == sendMsg[0] == HeadChar(e)
      ensures e == Load ==> head[0] == 'l'
      ensures e == Start ==> head[0] == 's'
      ensures e == Order ==> head[0] == 'o'
      ensures e == Connect ==> head[0] == 'c'
      ensures e == Finish ==> head[0] == 'f'
      ensures e == UnderSale ==> head[0] == 'u'
      ensures e == TotalData ==> head[0] == 't'
      ensures e == Part ==> head[0] == 'p'
      ensures e == PartData ==> head[0] == 'd'
      ensures e == PartKey ==> head[0] == 'k'
      ensures e == FinalPart ==> head[0] == 'P'
      ensures e == FinalAns ==> head[0] == 'A'
      ensures e == Unknown ==> head[0] == 'x'
    {
      MemsetZero(head);
      SwitchHead(e);
      CStringOf([HeadChar(e)], ['\0']);
      assert head[..] == [HeadChar(e)] + ['\0'];
      var text := Text(head[..]);
      Strcpy(sendMsg, 0, text);
      assert sendMsg[..][0] == HeadChar(e);
      for i := 0 to MAX_HEAD_LENGTH
        invariant sendMsg[0] == HeadChar(e)
        modifies sendMsg
      {
        if sendMsg[i] == '\0' {
          sendMsg[i] := ' ';
        }
      }
    }

    method SetBody(s: string)
      requires Valid() && |s| <= MAX_BODY_LENGTH && '\0' !in s && sendMsg[0] != '\0'
      modifies body, sendMsg
      ensures Valid()
      ensures Body() == s && Bytes() == [old(sendMsg[0])] + s && sendMsg[0] == old(sendMsg[0])
    {
      ghost var bodyTail, sendTail := body[|s| + 1..], sendMsg[|s| + 2..];
      Strcpy(body, 0, s);
      assert body[..] == s + (['\0'] + bodyTail);
      CStringOf(s, ['\0'] + bodyTail);
      assert body[MAX_BODY_LENGTH] == body[..][MAX_BODY_LENGTH];
      Strcpy(sendMsg, MAX_HEAD_LENGTH, s);
      assert sendMsg[..] == ([old(sendMsg[0])] + s) + (['\0'] + sendTail);
      CStringOf([old(sendMsg[0])] + s, ['\0'] + sendTail);
      assert sendMsg[0] == sendMsg[..][0];
    }

    /** `message(const char *)` over the 84 bytes read from the socket. */
    constructor Parse(s: array<char>)
      requires s.Length == BUFFER_SIZE
      ensures Valid() && fresh(head) && fresh(body) && fresh(sendMsg)
      ensures head[0] == if s[0] == ' ' then '\0' else s[0]
      ensures Body() == CString(s[1..1 + MAX_BODY_LENGTH])
      ensures Bytes() == if s[0] == '\0' then "" else [s[0]] + Body()
    {
      head := new char[MAX_HEAD_LENGTH + 1];
      body := new char[MAX_BODY_LENGTH + 1];
      sendMsg := new char[MAX_HEAD_LENGTH + MAX_BODY_LENGTH + 1];
      new;
      MemsetZero(head);
      MemsetZero(body);
      MemsetZero(sendMsg);
      for i := 0 to MAX_HEAD_LENGTH
        invariant head[1] == '\0' && fresh(head) && fresh(sendMsg)
        invariant i > 0 ==> sendMsg[0] == s[0] && head[0] == if s[0] == ' ' then '\0' else s[0]
        invariant forall j :: 0 <= j < body.Length ==> body[j] == '\0'
        invariant forall j :: 1 <= j < sendMsg.Length ==> sendMsg[j] == '\0'
        modifies head, sendMsg
      {
        if s[i] == ' ' {
          sendMsg[i] := ' ';
          head[i] := '\0';
        } else {
          sendMsg[i], head[i] := s[i], s[i];
        }
      }
      CopyBody(s, body, sendMsg);
      assert sendMsg[..][0] == s[0] && sendMsg[..][1..] == body[..];
    }

    /** `getHeadEnum`: the head of an enumerator gives it back, any other means `unknown`. */
    method GetHeadEnum() returns (e: HeadEnum)
      requires Valid()
      ensures forall x :: head[0] == HeadChar(x) ==> e == x
      ensures e != Unknown ==> head[0] == HeadChar(e)
      ensures e == Load <==> head[0] == 'l'
      ensures e == Start <==> head[0] == 's'
      ensures e == Order <==> head[0] == 'o'
      ensures e == Connect <==> head[0] == 'c'
      ensures e == Finish <==> head[0] == 'f'
      ensures e == UnderSale <==> head[0] == 'u'
      ensures e == TotalData <==> head[0] == 't'
      ensures e == Part <==> head[0] == 'p'
      ensures e == PartData <==> head[0] == 'd'
      ensures e == PartKey <==> head[0] == 'k'
      ensures e == FinalPart <==> head[0] == 'P'
      ensures e == FinalAns <==> head[0] == 'A'
    {
      if head[0] == 'l' {
        return Load;
      } else if head[0] == 's' {
        return Start;
      } else if head[0] == 'o' {
        return Order;
      } else if head[0] == 'c' {
        return Connect;
      } else if head[0] == 'f' {
        return Finish;
      } else if head[0] == 'u' {
        return UnderSale;
      } else if head[0] == 't' {
        return TotalData;
      } else if head[0] == 'p' {
        return Part;
      } else if head[0] == 'd' {
        return PartData;
      } else if head[0] == 'k' {
        return PartKey;
      } else if head[0] == 'P' {
        return FinalPart;
      } else if head[0] == 'A' {
        return FinalAns;
      } else {
        return Unknown;
      }
    }
  }

  class Client {
    const msgToServer: array<char>
    /** The frames handed to `async_write`, oldest first. */
    var written: seq<seq<char>>

    ghost predicate Valid()
      reads this
    {
      msgToServer.Length == BUFFER_SIZE
    }

    constructor ()
      ensures Valid() && fresh(msgToServer) && written == []
    {
      msgToServer, written := new char[BUFFER_SIZE], [];
    }

    /** `send(const message &)`: all 84 bytes go out, with stale ones behind the terminator. */
    method Send(m: Message)
      requires Valid() && m.Valid() && |m.Bytes()| < BUFFER_SIZE && m.sendMsg != msgToServer
      modifies this`written, msgToServer
      ensures |written| == |old(written)| + 1 && written[..|old(written)|] == old(written)
      ensures |written[|old(written)|]| == 84
      ensures IsFrameOf(written[|old(written)|], old(m.Bytes()))
      ensures written[|old(written)|] == old(m.Bytes()) + ['\0'] + old(msgToServer[|m.Bytes()| + 1..]) == msgToServer[..]
    {
      var text := Text(m.sendMsg[..]);
      Strcpy(msgToServer, 0, text);
      written := written + [msgToServer[..]];
      assert msgToServer[..] == text + (['\0'] + old(msgToServer[|m.Bytes()| + 1..]));
    }
  }

  function Text(s: seq<char>): string {
    CString(s)
  }

  /** A frame of `text`: 84 bytes that hold it and a terminator in front of anything. */
  predicate IsFrameOf(frame: seq<char>, text: string) {
    |frame| == BUFFER_SIZE && |text| < BUFFER_SIZE && frame[..|text|] == text && frame[|text|] == '\0'
  }

  /** Whatever stale bytes a frame holds, its receiver finds the head and the body that were sent. */
  lemma FrameRoundTrip(frame: seq<char>, e: HeadEnum, body: string)
    requires |body| <= MAX_BODY_LENGTH && '\0' !in body && IsFrameOf(frame, [HeadChar(e)] + body)
    ensures frame[0] == HeadChar(e) && frame[0] != ' '
    ensures CString(frame[1..1 + MAX_BODY_LENGTH]) == body
  {
    var text := [HeadChar(e)] + body;
    assert frame[0] == frame[..|text|][0] == text[0];
    assert frame[1..1 + |body|] == frame[..|text|][1..] == body;
    assert frame[1..1 + MAX_BODY_LENGTH] == body + frame[1 + |body|..1 + MAX_BODY_LENGTH];
    CStringOf(body, frame[1 + |body|..1 + MAX_BODY_LENGTH]);
  }

  /** `client::send` at one end of a connection, the blocking read and the parsing constructor at the
      other.  The message may be a new one or one that was parsed and is sent on. */
  method Hop(client: Client, socket: array<char>, m: Message, ghost e: HeadEnum, ghost body: string)
    returns (e': HeadEnum, m': Message)
    requires client.Valid() && socket.Length == BUFFER_SIZE && socket != client.msgToServer
    requires m.Valid() && m.sendMsg != client.msgToServer && m.Bytes() == [HeadChar(e)] + body
    requires |body| <= MAX_BODY_LENGTH && '\0' !in body
    modifies client, client.msgToServer, socket
    ensures e' == e && fresh(m') && m'.Valid() && fresh(m'.sendMsg)
    ensures m'.Body() == body && m'.Bytes() == [HeadChar(e)] + body
  {
    client.Send(m);
    var frame := client.written[|client.written| - 1];
    for i := 0 to BUFFER_SIZE
      invariant socket[..i] == frame[..i]
      modifies socket
    {
      socket[i] := frame[i];
    }
    assert socket[..] == frame;
    FrameRoundTrip(frame, e, body);
    m' := new Message.Parse(socket);
    assert socket[1..1 + MAX_BODY_LENGTH] == frame[1..1 + MAX_BODY_LENGTH];
    e' := m'.GetHeadEnum();
  }

  /** One message from `message` through `client::send` to the receiving server. */
  method Transmit(client: Client, socket: array<char>, e: HeadEnum, body: string) returns (e': HeadEnum, m': Message)
    requires client.Valid() && socket.Length == BUFFER_SIZE && socket != client.msgToServer
    requires |body| <= MAX_BODY_LENGTH && '\0' !in body
    modifies client, client.msgToServer, socket
    ensures e' == e && fresh(m') && m'.Valid() && fresh(m'.sendMsg)
    ensures m'.Body() == body && m'.Bytes() == [HeadChar(e)] + body
  {
    var m := new Message.Make(e, body);
    e', m' := Hop(client, socket, m, e, body);
  }

  /** A message that every process on its way sends on as it was parsed: the last one finds the enumerator
      and the body that the first one sent, whatever the buffers held. */
  method Relay(clients: seq<Client>, sockets: seq<array<char>>, e: HeadEnum, body: string)
    returns (e': HeadEnum, m': Message)
    requires 0 < |clients| == |sockets|
    requires forall c :: c in clients ==> c.Valid()
    requires forall k :: k in sockets ==> k.Length == BUFFER_SIZE && forall c :: c in clients ==> k != c.msgToServer
    requires |body| <= MAX_BODY_LENGTH && '\0' !in body
    modifies clients, sockets, set c | c in clients :: c.msgToServer
    ensures e' == e && fresh(m') && m'.Valid() && fresh(m'.sendMsg)
    ensures m'.Body() == body && m'.Bytes() == [HeadChar(e)] + body
  {
    e', m' := Transmit(clients[0], sockets[0], e, body);
    for i := 1 to |clients|
      invariant e' == e && fresh(m') && m'.Valid() && fresh(m'.sendMsg)
      invariant m'.Body() == body && m'.Bytes() == [HeadChar(e)] + body
    {
      e', m' := Hop(clients[i], sockets[i], m', e, body);
    }
  }
}
