/**
  The chat relay server (index.js): the channel list read from the
  TWITCH_CHANNELS environment variable, the mapping of an inbound Twitch chat
  event to the chat record sent to viewers, the set of connected viewer
  sessions, the broadcast to every open session, and the `/health` payload.

  The Twitch client, the WebSocket transport and the HTTP server are not
  modelled; a viewer session is an object with a ready state and the log of
  payloads it has been sent, `JSON.stringify` is a serialiser passed in, and
  `Date.now()` is a clock value passed in.
 */
module Relay {
  import opened JsCore

  // ---------------------------------------------------------------------------
  // Channel list
  // ---------------------------------------------------------------------------

  /** The channels monitored when TWITCH_CHANNELS is unset or empty. */
  const DefaultChannels: seq<string> := ["brz_ren", "vavo_tv", "fuzzyrjtv"]

  /** Trims every element of a list, keeping count and order. */
  function TrimAll(xs: seq<string>): (r: seq<string>)
    ensures |r| == |xs|
    ensures forall i :: 0 <= i < |xs| ==> r[i] == Trim(xs[i])
  {
    seq(|xs|, i requires 0 <= i < |xs| => Trim(xs[i]))
  }

  /** Trimming a list of already trimmed names changes nothing. */
  lemma {:induction false} TrimAllTrimmed(xs: seq<string>)
    requires forall i :: 0 <= i < |xs| ==> IsTrimmed(xs[i])
    ensures TrimAll(xs) == xs
  {
    forall i | 0 <= i < |xs| ensures Trim(xs[i]) == xs[i] {
      TrimOfTrimmed(xs[i]);
    }
  }

  /** The TWITCH_CHANNELS value read at start-up, turned into the channel list:
      a truthy (present, non-empty) value is split on ',' and every piece is
      trimmed; otherwise the default list is used. The list is never empty and
      no element has white space at either end. */
  function ParseChannels(env: Option<string>): (r: seq<string>)
    ensures |r| >= 1
    ensures forall i :: 0 <= i < |r| ==> IsTrimmed(r[i])
  {
    if Truthy(env) then TrimAll(Split(env.value, ',')) else DefaultChannels
  }

  /** A non-empty TWITCH_CHANNELS gives one channel per ','-separated piece, in
      order, each piece trimmed and otherwise kept as it is: one more channel
      than there are commas, empty pieces kept, nothing removed, merged or
      capped. */
  lemma {:induction false} ParseConfigured(s: string)
    requires s != ""
    ensures |ParseChannels(Some(s))| == multiset(s)[','] + 1
    ensures forall i :: 0 <= i < |ParseChannels(Some(s))| ==>
      ParseChannels(Some(s))[i] == Trim(Split(s, ',')[i])
  {
    SplitShape(s, ',');
  }

  /** When no piece of a non-empty TWITCH_CHANNELS has white space at either
      end, the channel list is exactly the pieces. */
  lemma {:induction false} ParseTrimmedPieces(s: string)
    requires s != "" && TrimAll(Split(s, ',')) == Split(s, ',')
    ensures ParseChannels(Some(s)) == Split(s, ',')
  {
  }

  /** An unset or empty TWITCH_CHANNELS gives exactly the default list. */
  lemma ParseUnset(env: Option<string>)
    requires env == None || env == Some("")
    ensures ParseChannels(env) == DefaultChannels
  {
  }

  /** Parsing keeps a name exactly as written (no case folding, no character
      filtering), keeps a piece that trims to empty, and keeps duplicates. */
  lemma {:induction false} ParseKeepsEverything(name: string)
    requires ',' !in name && IsTrimmed(name)
    ensures ParseChannels(Some(name + ", ," + name)) == [name, "", name]
  {
    var s := name + ", ," + name;
    SplitThree(name);
    TrimThree(name);
    assert ParseChannels(Some(s)) == TrimAll(Split(s, ','));
  }

  /** Helper: the three pieces of `name + ", ," + name`. */
  lemma {:induction false} SplitThree(name: string)
    requires ',' !in name
    ensures Split(name + ", ," + name, ',') == [name, " ", name]
  {
    var pieces := [name, " ", name];
    assert Join([" ", name], ',') == " " + [','] + name by {
      assert [" ", name][1..] == [name];
    }
    assert Join(pieces, ',') == name + [','] + (" " + [','] + name) by {
      assert pieces[1..] == [" ", name];
    }
    assert name + [','] + (" " + [','] + name) == name + ", ," + name;
    SplitJoin(pieces, ',');
  }

  /** Helper: trimming the three pieces. */
  lemma {:induction false} TrimThree(name: string)
    requires IsTrimmed(name)
    ensures TrimAll([name, " ", name]) == [name, "", name]
  {
    var r := TrimAll([name, " ", name]);
    assert r[0] == name && r[2] == name by {
      TrimOfTrimmed(name);
    }
    assert r[1] == "" by {
      assert AllSpace(" ");
      TrimEmpty(" ");
    }
  }

  /** An example of ParseConfigured: there is no cap on the number of
      channels, so six pieces give six channels. */
  lemma ParseHasNoCap()
    ensures |ParseChannels(Some("a,b,c,d,e,f"))| == 6
  {
    ParseConfigured("a,b,c,d,e,f");
    assert multiset("a,b,c,d,e,f")[','] == 5;
  }

  // ---------------------------------------------------------------------------
  // Inbound chat events
  // ---------------------------------------------------------------------------

  /** The two message tags the relay reads; each may be missing. */
  datatype Tags = Tags(displayName: Option<string>, username: Option<string>)

  /** The record sent to viewers for one chat line. `username` is absent when
      neither tag is present (the field is then left out of the JSON). */
  datatype ChatMessage = ChatMessage(
    platform: string,
    channel: string,
    username: Option<string>,
    message: string,
    timestamp: int)

  /** JavaScript `a || b` on optional strings: `a` when truthy, else `b`. */
  function Or(a: Option<string>, b: Option<string>): (r: Option<string>)
    ensures r == a || r == b
    ensures Truthy(r) <==> Truthy(a) || Truthy(b)
  {
    if Truthy(a) then a else b
  }

  /** The sender shown for a chat line: `display-name || username`. */
  function Sender(tags: Tags): (r: Option<string>)
    ensures r == tags.displayName || r == tags.username
    ensures Truthy(r) <==> Truthy(tags.displayName) || Truthy(tags.username)
  {
    Or(tags.displayName, tags.username)
  }

  /** A present, non-empty display name wins; an absent or empty one falls
      back to the login name, whatever that is. */
  lemma SenderChoice(tags: Tags)
    ensures Truthy(tags.displayName) ==> Sender(tags) == tags.displayName
    ensures !Truthy(tags.displayName) ==> Sender(tags) == tags.username
  {
  }

  /** The `message` handler's mapping: nothing for a line the relay itself
      sent, otherwise a Twitch record with the first '#' removed from the
      channel, the sender, the text as it is, and the clock value. */
  function ChatRecord(channel: string, tags: Tags, message: string, self: bool, now: int)
    : (r: Option<ChatMessage>)
    ensures r.None? <==> self
    ensures r.Some? ==>
      && r.value.platform == "Twitch" && r.value.message == message
      && r.value.timestamp == now && r.value.username == Sender(tags)
  {
    if self then None
    else Some(ChatMessage("Twitch", RemoveFirst(channel, '#'), Sender(tags), message, now))
  }

  /** Only the first '#' of the channel goes, wherever it stands; the text on
      either side of it is kept. */
  lemma {:induction false} ChatRecordChannel(channel: string, tags: Tags, message: string, now: int, i: nat)
    requires i < |channel| && channel[i] == '#' && '#' !in channel[..i]
    ensures ChatRecord(channel, tags, message, false, now).value.channel
      == channel[..i] + channel[i + 1..]
  {
    RemoveFirstAt(channel, '#', i);
  }

  /** Twitch names a channel "#name": the record carries "name". */
  lemma {:induction false} ChatRecordTwitchChannel(name: string, tags: Tags, message: string, now: int)
    ensures ChatRecord("#" + name, tags, message, false, now).value.channel == name
  {
  }

  /** A channel without '#' is carried over as it is. */
  lemma {:induction false} ChatRecordPlainChannel(channel: string, tags: Tags, message: string, now: int)
    requires '#' !in channel
    ensures ChatRecord(channel, tags, message, false, now).value.channel == channel
  {
    RemoveFirstAbsent(channel, '#');
  }

  // ---------------------------------------------------------------------------
  // Viewer sessions and broadcast
  // ---------------------------------------------------------------------------

  /** The WebSocket ready states. */
  datatype ReadyState = Connecting | Open | Closing | Closed

  /** What a session receives from one broadcast of `payload`. */
  function Delivery(state: ReadyState, payload: string): (r: seq<string>)
    ensures |r| <= 1
    ensures r != [] <==> state == Open
    ensures forall i :: 0 <= i < |r| ==> r[i] == payload
  {
    if state == Open then [payload] else []
  }

  /** One viewer connection: its ready state, driven by the transport, and the
      payloads sent to it so far. */
  class Session {
    var readyState: ReadyState
    var received: seq<string>

    constructor (state: ReadyState)
      ensures readyState == state && received == []
    {
      readyState := state;
      received := [];
    }

    /** `ws.send`: appends the payload to what the viewer has received. */
    method Send(data: string)
      requires readyState == Open
      modifies this`received
      ensures received == old(received) + [data]
    {
      received := received + [data];
    }
  }

  /** The `/health` payload. */
  datatype HealthReport = HealthReport(status: string, twitch: string, channels: seq<string>, clients: nat)

  /** The relay's module-level state: the channel list fixed at start-up and
      the set of connected viewer sessions. */
  class Server {
    const channels: seq<string>
    var clients: set<Session>

    /** Loading the module: the channel list is read from TWITCH_CHANNELS and
        there is no viewer yet. */
    constructor (env: Option<string>)
      ensures channels == ParseChannels(env) && clients == {}
    {
      channels := ParseChannels(env);
      clients := {};
    }

    /** A viewer connects: it joins the set (no change if already there). */
    method OnConnection(ws: Session)
      modifies this
      ensures clients == old(clients) + {ws}
    {
      clients := clients + {ws};
    }

    /** A viewer's connection closes: it leaves the set (no change if it was
        not there). */
    method OnClose(ws: Session)
      modifies this
      ensures clients == old(clients) - {ws}
    {
      clients := clients - {ws};
    }

    /** `broadcastMessage`: serialises the message once and sends that one
        payload to every session in the set that is open, and to no other.
        The set itself, every ready state and every session outside the set
        are left as they were. */
    method BroadcastMessage(message: ChatMessage, stringify: ChatMessage -> string)
      modifies clients
      ensures clients == old(clients)
      ensures forall c :: c in clients ==> c.readyState == old(c.readyState)
      ensures forall c :: c in clients ==>
        c.received == old(c.received) + Delivery(old(c.readyState), stringify(message))
    {
      var messageData := stringify(message);
      var pending := clients;
      while pending != {}
        invariant pending <= clients
        invariant forall c :: c in clients ==> c.readyState == old(c.readyState)
        invariant forall c :: c in pending ==> c.received == old(c.received)
        invariant forall c :: c in clients && c !in pending ==>
          c.received == old(c.received) + Delivery(old(c.readyState), messageData)
        decreases pending
      {
        var client :| client in pending;
        if client.readyState == Open {
          client.Send(messageData);
        }
        pending := pending - {client};
      }
    }

    /** The `message` handler: builds the chat record and, unless the line is
        the relay's own, broadcasts it. */
    method OnMessage(channel: string, tags: Tags, message: string, self: bool, now: int,
                     stringify: ChatMessage -> string)
      returns (record: Option<ChatMessage>)
      modifies clients
      ensures record == ChatRecord(channel, tags, message, self, now)
      ensures clients == old(clients)
      ensures forall c :: c in clients ==> c.readyState == old(c.readyState)
      ensures self ==> forall c :: c in clients ==> c.received == old(c.received)
      ensures !self ==> forall c :: c in clients ==>
        c.received == old(c.received) + Delivery(old(c.readyState), stringify(record.value))
    {
      record := ChatRecord(channel, tags, message, self, now);
      if record.Some? {
        BroadcastMessage(record.value, stringify);
      }
    }

    /** `GET /health`: reports the channel list read at start-up and the number
        of sessions in the set; `twitchState` is the Twitch client's own state. */
    method Health(twitchState: string) returns (h: HealthReport)
      ensures h.status == "ok" && h.twitch == twitchState
      ensures h.channels == channels && h.clients == |clients|
    {
      h := HealthReport("ok", twitchState, channels, |clients|);
    }
  }
}
