/**
 * activemq-cpp STOMP ConnectedCommand: the command built from the CONNECTED frame a
 * broker sends once a connection is established (the CONNECTED frame of the STOMP 1.0
 * protocol, "Connecting" section). The command wraps a frame, a command name and a map
 * of headers; its setters and getter go through that map.
 *
 * The header names come from CommandConstants, which is not part of this model; they are
 * taken from the STOMP 1.0 protocol ("session" for the session id, "receipt-id" for the
 * id of the request a response answers).
 */
module StompConnected {
  import opened Common

  const CONNECTED: string := "CONNECTED"
  const HEADER_SESSIONID: string := "session"
  const HEADER_RESPONSEID: string := "receipt-id"

  // ---------------------------------------------------------------------------
  // Integer::toString: optional minus sign, then decimal digits
  // ---------------------------------------------------------------------------

  predicate IsDigit(c: char) { '0' <= c <= '9' }

  function DigitChar(d: int): (c: char)
    requires 0 <= d < 10
    ensures IsDigit(c) && c as int - '0' as int == d
  {
    ('0' as int + d) as char
  }

  /** The decimal digits of `n`, most significant first, with no leading zero. */
  function NatToString(n: nat): (s: string)
    ensures |s| > 0 && (forall i :: 0 <= i < |s| ==> IsDigit(s[i]))
    ensures s[0] == '0' ==> n == 0 && s == "0"
  {
    if n < 10 then [DigitChar(n)] else NatToString(n / 10) + [DigitChar(n % 10)]
  }

  function IntToString(n: int): (s: string)
    ensures |s| > 0
    ensures n < 0 <==> s[0] == '-'
  {
    if n < 0 then "-" + NatToString(-n) else NatToString(n)
  }

  /** The value of a string of decimal digits. */
  function ParseNat(s: string): int
    requires forall i :: 0 <= i < |s| ==> IsDigit(s[i])
  {
    if s == [] then 0 else ParseNat(s[..|s| - 1]) * 10 + (s[|s| - 1] as int - '0' as int)
  }

  /** The value of an optional minus sign followed by decimal digits. */
  function ParseInt(s: string): int
    requires |s| > 0
    requires forall i :: 0 <= i < |s| ==> IsDigit(s[i]) || (i == 0 && s[i] == '-')
  {
    if s[0] == '-' then -ParseNat(s[1..]) else ParseNat(s)
  }

  lemma {:induction false} ParseNatToString(n: nat)
    ensures ParseNat(NatToString(n)) == n
  {
    if n >= 10 {
      var s := NatToString(n);
      assert s[..|s| - 1] == NatToString(n / 10);
      ParseNatToString(n / 10);
    }
  }

  /** The decimal string of any int reads back as that int. */
  lemma ParseIntToString(n: int)
    ensures ParseInt(IntToString(n)) == n
  {
    if n < 0 {
      assert IntToString(n)[1..] == NatToString(-n);
      ParseNatToString(-n);
    } else {
      ParseNatToString(n);
    }
  }

  /** Different ints have different decimal strings. */
  lemma IntToStringInjective(m: int, n: int)
    ensures IntToString(m) == IntToString(n) ==> m == n
  {
    ParseIntToString(m);
    ParseIntToString(n);
  }

  // ---------------------------------------------------------------------------
  // The frame and the command
  // ---------------------------------------------------------------------------

  class StompFrame {
    var command: string
    var properties: map<string, string>

    constructor ()
      ensures command == "" && properties == map[]
    {
      command := "";
      properties := map[];
    }

    method Clone() returns (f: StompFrame)
      ensures fresh(f) && f.command == command && f.properties == properties
    {
      f := new StompFrame();
      f.command := command;
      f.properties := properties;
    }
  }

  /** validate: the frame is acceptable exactly when its command is CONNECTED. */
  function Validate(frame: StompFrame): (ok: bool)
    reads frame
    ensures ok <==> frame.command == CONNECTED
  {
    frame.command == CONNECTED
  }

  /** initialize: the frame's command becomes CONNECTED; its headers are kept. */
  method Initialize(frame: StompFrame)
    modifies frame
    ensures frame.command == CONNECTED && frame.properties == old(frame.properties)
    ensures Validate(frame)
  {
    frame.command := CONNECTED;
  }

  class ConnectedCommand {
    const frame: StompFrame

    /** A new command over a new frame, initialized to CONNECTED. */
    constructor ()
      ensures fresh(frame) && frame.command == CONNECTED && frame.properties == map[]
    {
      frame := new StompFrame();
      new;
      Initialize(frame);
    }

    /** A command over a received frame; validate runs, and its verdict is not acted on. */
    constructor FromFrame(f: StompFrame)
      ensures frame == f
    {
      frame := f;
      new;
      var valid := Validate(frame);
    }

    /** The header value stored under `name`, or NULL. */
    function GetPropertyValue(name: string): (v: Option<string>)
      reads frame
      ensures v.Some? <==> name in frame.properties
      ensures v.Some? ==> v.value == frame.properties[name]
    {
      if name in frame.properties then Some(frame.properties[name]) else None
    }

    method SetPropertyValue(name: string, value: string)
      modifies frame
      ensures frame.properties == old(frame.properties)[name := value]
      ensures frame.command == old(frame.command)
    {
      frame.properties := frame.properties[name := value];
    }

    /** The response id header holds the decimal string of `corrId`; nothing else changes. */
    method SetCorrelationId(corrId: int)
      modifies frame
      ensures frame.properties == old(frame.properties)[HEADER_RESPONSEID := IntToString(corrId)]
      ensures frame.command == old(frame.command)
    {
      SetPropertyValue(HEADER_RESPONSEID, IntToString(corrId));
    }

    function GetSessionId(): (s: Option<string>)
      reads frame
      ensures s == GetPropertyValue(HEADER_SESSIONID)
    {
      GetPropertyValue(HEADER_SESSIONID)
    }

    method SetSessionId(session: string)
      modifies frame
      ensures GetSessionId() == Some(session)
      ensures frame.properties == old(frame.properties)[HEADER_SESSIONID := session]
      ensures frame.command == old(frame.command)
    {
      SetPropertyValue(HEADER_SESSIONID, session);
    }

    /** A new command over a copy of this command's frame. */
    method CloneStompCommand() returns (c: ConnectedCommand)
      ensures fresh(c) && fresh(c.frame)
      ensures c.frame.command == frame.command && c.frame.properties == frame.properties
    {
      var f := frame.Clone();
      c := new ConnectedCommand.FromFrame(f);
    }
  }

  /** The correlation id a command carries reads back as the int that was set. */
  lemma CorrelationIdReadsBack(properties: map<string, string>, corrId: int)
    ensures HEADER_RESPONSEID in properties[HEADER_RESPONSEID := IntToString(corrId)]
    ensures ParseInt(properties[HEADER_RESPONSEID := IntToString(corrId)][HEADER_RESPONSEID]) == corrId
  {
    ParseIntToString(corrId);
  }
}
