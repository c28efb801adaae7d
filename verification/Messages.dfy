/** Values shared by the agents-side modules: session keys, message payloads and optional values. */
module Options {
  datatype Option<+T> = None | Some(value: T)
}

module Messages {
  import opened Options

  /** "channel:kind:peer", kept as the plain string the program hashes on. */
  type SessionKey = string

  /** The session id an agent hands out. */
  type AcpId = string

  datatype ContentPart =
    | Text(text: string)
    | Image(url: string)
    | File(url: string, filename: Option<string>, mimeType: Option<string>)
    | Audio(url: string, mimeType: Option<string>)

  datatype MessageMetadata = MessageMetadata(threadId: Option<string>, replyToMessageId: Option<string>)

  datatype Payload = Payload(content: seq<ContentPart>, metadata: Option<MessageMetadata>)

  /** All content of a list of payloads, in order. */
  function Flatten(ps: seq<Payload>): seq<ContentPart> {
    if ps == [] then [] else Flatten(ps[..|ps| - 1]) + ps[|ps| - 1].content
  }

  lemma {:induction false} FlattenConcat(a: seq<Payload>, b: seq<Payload>)
    ensures Flatten(a + b) == Flatten(a) + Flatten(b)
  {
    if b == [] {
      assert a + b == a;
    } else {
      var n := |b| - 1;
      assert (a + b)[..|a + b| - 1] == a + b[..n];
      FlattenConcat(a, b[..n]);
    }
  }

  /** The first metadata present, as `flush_pending` keeps it. */
  function FirstMetadata(ps: seq<Payload>): Option<MessageMetadata> {
    if ps == [] then None
    else
      var before := FirstMetadata(ps[..|ps| - 1]);
      if before.None? then ps[|ps| - 1].metadata else before
  }

  /** The last metadata present, as `handle_prompt_completion` keeps it. */
  function LastMetadata(ps: seq<Payload>): Option<MessageMetadata> {
    if ps == [] then None
    else if ps[|ps| - 1].metadata.Some? then ps[|ps| - 1].metadata
    else LastMetadata(ps[..|ps| - 1])
  }

  /** A flushed batch carries the earliest metadata there is, a batch after a completion the latest. */
  lemma {:induction false} MetadataMeaning(ps: seq<Payload>, i: nat)
    requires i < |ps| && ps[i].metadata.Some?
    ensures (forall j :: 0 <= j < i ==> ps[j].metadata.None?) ==> FirstMetadata(ps) == ps[i].metadata
    ensures (forall j :: i < j < |ps| ==> ps[j].metadata.None?) ==> LastMetadata(ps) == ps[i].metadata
  {
    if i == |ps| - 1 {
      NoMetadata(ps[..i]);
    } else {
      MetadataMeaning(ps[..|ps| - 1], i);
    }
  }

  lemma {:induction false} NoMetadata(ps: seq<Payload>)
    ensures (forall j :: 0 <= j < |ps| ==> ps[j].metadata.None?)
       <==> FirstMetadata(ps).None? && LastMetadata(ps).None?
  {
    if ps != [] {
      NoMetadata(ps[..|ps| - 1]);
      assert FirstMetadata(ps).None? ==> ps[|ps| - 1].metadata.None?;
      forall j | 0 <= j < |ps| && FirstMetadata(ps).None? && LastMetadata(ps).None?
        ensures ps[j].metadata.None?
      {
        if j < |ps| - 1 { assert ps[..|ps| - 1][j].metadata.None?; }
      }
    }
  }

  /** The text before the first colon: `SessionKey::channel_name`. */
  function ChannelName(key: SessionKey): string {
    if key == "" || key[0] == ':' then "" else [key[0]] + ChannelName(key[1..])
  }

  /** The channel's name has no colon, and ends the key or is followed by one. */
  lemma {:induction false} ChannelNameMeaning(key: SessionKey)
    ensures var c := ChannelName(key);
            && ':' !in c && c <= key && (c == key || key[|c|] == ':')
  {
    if key != "" && key[0] != ':' {
      ChannelNameMeaning(key[1..]);
      assert key == [key[0]] + key[1..];
    }
  }

  function NewKey(channel: string, kind: string, peer: string): SessionKey {
    channel + ":" + kind + ":" + peer
  }
}
