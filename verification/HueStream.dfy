/**
 The HueStream wire format: the parsing loops of entertainment.py, the sequence functions
 that specify them, and a printer to which parsing is inverse in both directions.
 */
module HueStream {
  import opened Prelude

  type byte = b: int | 0 <= b < 256

  datatype Channel = Channel(id: nat, r: nat, g: nat, b: nat)
  datatype Frame = Frame(version: byte, colorSpace: byte, channels: seq<Channel>)

  /** The two protocol versions differ in header size and in how a channel is laid out. */
  datatype Layout = V1 | V2

  const MAGIC: seq<byte> := [72, 117, 101, 83, 116, 114, 101, 97, 109]  // "HueStream"

  function HeaderSize(layout: Layout): nat { if layout.V2? then 52 else 16 }
  function ChannelSize(layout: Layout): nat { if layout.V2? then 7 else 9 }
  function Version(layout: Layout): byte { if layout.V2? then 2 else 1 }

  /** A big-endian 16-bit word. */
  function Word(hi: byte, lo: byte): nat { hi as int * 256 + lo as int }

  function U16(data: seq<byte>, i: nat): nat
    requires i + 2 <= |data|
  {
    Word(data[i], data[i + 1])
  }

  function ChannelAt(layout: Layout, data: seq<byte>, i: nat): Channel
    requires i + ChannelSize(layout) <= |data|
  {
    if layout.V2?
    then Channel(data[i], U16(data, i + 1), U16(data, i + 3), U16(data, i + 5))
    else Channel(U16(data, i + 1), U16(data, i + 3), U16(data, i + 5), U16(data, i + 7))
  }

  function Channels(layout: Layout, data: seq<byte>, i: nat): seq<Channel>
    decreases |data| - i
  {
    if i + ChannelSize(layout) <= |data|
    then [ChannelAt(layout, data, i)] + Channels(layout, data, i + ChannelSize(layout))
    else []
  }

  /** The layout a frame is parsed with, if it is accepted at all. */
  function LayoutOf(data: seq<byte>): Option<Layout> {
    if !(MAGIC <= data) || |data| < 15 then None
    else if data[9] == 2 then (if |data| < 52 then None else Some(V2))
    else if data[9] == 1 then (if |data| < 16 + 9 then None else Some(V1))
    else None
  }

  function Parse(data: seq<byte>): Option<Frame> {
    match LayoutOf(data)
    case None => None
    case Some(layout) => Some(Frame(data[9], data[14], Channels(layout, data, HeaderSize(layout))))
  }

  // ---- the parsing loops ----

  method ParseV2Channels(data: seq<byte>) returns (channels: seq<Channel>)
    ensures channels == Channels(V2, data, 52)
  {
    channels := [];
    var offset := 52;
    while offset + 7 <= |data|
      invariant channels + Channels(V2, data, offset) == Channels(V2, data, 52)
    {
      var val1 := Word(data[offset + 1], data[offset + 2]);
      var val2 := Word(data[offset + 3], data[offset + 4]);
      var val3 := Word(data[offset + 5], data[offset + 6]);
      channels := channels + [Channel(data[offset], val1, val2, val3)];
      offset := offset + 7;
    }
  }

  method ParseV1Channels(data: seq<byte>) returns (channels: seq<Channel>)
    ensures channels == Channels(V1, data, 16)
  {
    channels := [];
    var offset := 16;
    while offset + 9 <= |data|
      invariant channels + Channels(V1, data, offset) == Channels(V1, data, 16)
    {
      var lightId := Word(data[offset + 1], data[offset + 2]);
      var val1 := Word(data[offset + 3], data[offset + 4]);
      var val2 := Word(data[offset + 5], data[offset + 6]);
      var val3 := Word(data[offset + 7], data[offset + 8]);
      channels := channels + [Channel(lightId, val1, val2, val3)];
      offset := offset + 9;
    }
  }

  method ParseFrame(data: seq<byte>) returns (parsed: Option<Frame>)
    ensures parsed == Parse(data)
  {
    if !(MAGIC <= data) || |data| < 15 {
      return None;
    }
    var version, colorSpace := data[9], data[14];
    var channels;
    if version == 2 {
      if |data| < 52 {
        return None;
      }
      channels := ParseV2Channels(data);
    } else if version == 1 {
      if |data| < 16 + 9 {
        return None;
      }
      channels := ParseV1Channels(data);
    } else {
      return None;
    }
    parsed := Some(Frame(version, colorSpace, channels));
  }

  // ---- the format, byte by byte ----

  lemma MagicSpells()
    ensures |MAGIC| == 9 && forall k | 0 <= k < 9 :: MAGIC[k] as int == "HueStream"[k] as int
  {
  }

  /** What is accepted: the magic, and version 2 with a full header or version 1 with at least one channel. */
  lemma Accepted(data: seq<byte>)
    ensures Parse(data).Some? <==>
      && |data| >= 9 && (forall k | 0 <= k < 9 :: data[k] as int == "HueStream"[k] as int)
      && ((|data| >= 52 && data[9] == 2) || (|data| >= 25 && data[9] == 1))
    ensures Parse(data).Some? ==>
      Parse(data).value.version == data[9] && Parse(data).value.colorSpace == data[14]
  {
    MagicSpells();
    if |data| >= 9 && forall k | 0 <= k < 9 :: data[k] as int == "HueStream"[k] as int {
      assert data[..9] == MAGIC;
    }
  }

  lemma {:induction false} ChannelsAt(layout: Layout, data: seq<byte>, i: nat, k: nat)
    requires k < |Channels(layout, data, i)|
    ensures i + ChannelSize(layout) * (k + 1) <= |data|
    ensures Channels(layout, data, i)[k] == ChannelAt(layout, data, i + ChannelSize(layout) * k)
    decreases k
  {
    if k > 0 {
      ChannelsAt(layout, data, i + ChannelSize(layout), k - 1);
    }
  }

  /** A version 2 channel: seven bytes after the 52 of the header, an id and three words, high byte first. */
  lemma V2ChannelBytes(data: seq<byte>, k: nat)
    requires Parse(data).Some? && data[9] == 2 && k < |Parse(data).value.channels|
    ensures var c, at := Parse(data).value.channels[k], 52 + 7 * k;
      && at + 7 <= |data| && c.id == data[at] as int
      && c.r == 256 * data[at + 1] as int + data[at + 2] as int
      && c.g == 256 * data[at + 3] as int + data[at + 4] as int
      && c.b == 256 * data[at + 5] as int + data[at + 6] as int
  {
    ChannelsAt(V2, data, 52, k);
  }

  /** A version 1 channel: nine bytes after the 16 of the header, the first of them ignored, and four words. */
  lemma V1ChannelBytes(data: seq<byte>, k: nat)
    requires Parse(data).Some? && data[9] == 1 && k < |Parse(data).value.channels|
    ensures var c, at := Parse(data).value.channels[k], 16 + 9 * k;
      && at + 9 <= |data|
      && c.id == 256 * data[at + 1] as int + data[at + 2] as int
      && c.r == 256 * data[at + 3] as int + data[at + 4] as int
      && c.g == 256 * data[at + 5] as int + data[at + 6] as int
      && c.b == 256 * data[at + 7] as int + data[at + 8] as int
  {
    ChannelsAt(V1, data, 16, k);
  }

  // ---- the printer ----

  function BigEndian(v: nat): seq<byte>
    requires v < 65536
  {
    [v / 256, v % 256]
  }

  predicate InRange(layout: Layout, c: Channel) {
    c.id < (if layout.V2? then 256 else 65536) && c.r < 65536 && c.g < 65536 && c.b < 65536
  }

  /** One channel; version 1 spends a leading byte `kind` that the parser ignores. */
  function PrintChannel(layout: Layout, kind: byte, c: Channel): seq<byte>
    requires InRange(layout, c)
  {
    (if layout.V2? then [c.id as byte] else [kind] + BigEndian(c.id))
    + BigEndian(c.r) + BigEndian(c.g) + BigEndian(c.b)
  }

  function Print(layout: Layout, kinds: seq<byte>, channels: seq<Channel>): seq<byte>
    requires |kinds| == |channels|
    requires forall c <- channels :: InRange(layout, c)
  {
    if channels == [] then []
    else PrintChannel(layout, kinds[0], channels[0]) + Print(layout, kinds[1..], channels[1..])
  }

  predicate IsHeader(layout: Layout, header: seq<byte>) {
    |header| == HeaderSize(layout) && MAGIC <= header && header[9] == Version(layout)
  }

  lemma ReadBack(layout: Layout, pre: seq<byte>, kind: byte, c: Channel, post: seq<byte>)
    requires InRange(layout, c)
    ensures |PrintChannel(layout, kind, c)| == ChannelSize(layout)
    ensures ChannelAt(layout, pre + PrintChannel(layout, kind, c) + post, |pre|) == c
  {
    var p := PrintChannel(layout, kind, c);
    var data := pre + p + post;
    assert forall k | 0 <= k < |p| :: data[|pre| + k] == p[k];
  }

  lemma {:induction false} ReadAllBack(layout: Layout, pre: seq<byte>, kinds: seq<byte>,
                                       channels: seq<Channel>, tail: seq<byte>)
    requires |kinds| == |channels|
    requires forall c <- channels :: InRange(layout, c)
    requires |tail| < ChannelSize(layout)
    ensures Channels(layout, pre + Print(layout, kinds, channels) + tail, |pre|) == channels
    decreases |channels|
  {
    if channels != [] {
      var p := PrintChannel(layout, kinds[0], channels[0]);
      var rest := Print(layout, kinds[1..], channels[1..]);
      var data := pre + Print(layout, kinds, channels) + tail;
      assert data == pre + p + (rest + tail) by {
        assert pre + (p + rest) + tail == pre + p + (rest + tail);
      }
      ReadBack(layout, pre, kinds[0], channels[0], rest + tail);
      assert data == pre + p + rest + tail by {
        assert pre + p + (rest + tail) == pre + p + rest + tail;
      }
      ReadAllBack(layout, pre + p, kinds[1..], channels[1..], tail);
    }
  }

  /** Parsing a printed frame gives the channels back; a partial trailing channel changes nothing. */
  lemma RoundTrip(layout: Layout, header: seq<byte>, kinds: seq<byte>,
                  channels: seq<Channel>, tail: seq<byte>)
    requires IsHeader(layout, header)
    requires |kinds| == |channels|
    requires forall c <- channels :: InRange(layout, c)
    requires |tail| < ChannelSize(layout)
    requires layout.V1? ==> channels != []
    ensures Parse(header + Print(layout, kinds, channels) + tail)
         == Some(Frame(Version(layout), header[14], channels))
  {
    var data := header + Print(layout, kinds, channels) + tail;
    ReadAllBack(layout, header, kinds, channels, tail);
    assert data[..9] == header[..9] == MAGIC;
    assert data[9] == header[9] && data[14] == header[14];
    if layout.V1? {
      ReadBack(layout, [], kinds[0], channels[0], []);
    }
  }

  /** The ignored leading bytes of the channels from position i on. */
  function Kinds(layout: Layout, data: seq<byte>, i: nat): (r: seq<byte>)
    ensures |r| == |Channels(layout, data, i)|
    decreases |data| - i
  {
    if i + ChannelSize(layout) <= |data|
    then [data[i]] + Kinds(layout, data, i + ChannelSize(layout))
    else []
  }

  lemma PrintChannelBack(layout: Layout, data: seq<byte>, i: nat)
    requires i + ChannelSize(layout) <= |data|
    ensures InRange(layout, ChannelAt(layout, data, i))
    ensures PrintChannel(layout, data[i], ChannelAt(layout, data, i)) == data[i..i + ChannelSize(layout)]
  {
    forall j | 0 <= j < |data| - 1
      ensures U16(data, j) < 65536 && BigEndian(U16(data, j)) == [data[j], data[j + 1]]
    {
    }
  }

  lemma {:induction false} ChannelCount(layout: Layout, data: seq<byte>, i: nat)
    requires i <= |data|
    ensures |Channels(layout, data, i)| == (|data| - i) / ChannelSize(layout)
    ensures i + ChannelSize(layout) * |Channels(layout, data, i)| <= |data|
    decreases |data| - i
  {
    if i + ChannelSize(layout) <= |data| {
      ChannelCount(layout, data, i + ChannelSize(layout));
    }
  }

  lemma {:induction false} ChannelsInRange(layout: Layout, data: seq<byte>, i: nat)
    ensures forall c <- Channels(layout, data, i) :: InRange(layout, c)
    decreases |data| - i
  {
    if i + ChannelSize(layout) <= |data| {
      PrintChannelBack(layout, data, i);
      ChannelsInRange(layout, data, i + ChannelSize(layout));
    }
  }

  lemma {:induction false} PrintAllBack(layout: Layout, data: seq<byte>, i: nat, end: nat)
    requires i <= end <= |data| && end == i + ChannelSize(layout) * |Channels(layout, data, i)|
    requires forall c <- Channels(layout, data, i) :: InRange(layout, c)
    ensures Print(layout, Kinds(layout, data, i), Channels(layout, data, i)) == data[i..end]
    decreases |data| - i
  {
    var next := i + ChannelSize(layout);
    if next <= |data| {
      var rest := Channels(layout, data, next);
      assert Channels(layout, data, i)[1..] == rest;
      assert Kinds(layout, data, i)[1..] == Kinds(layout, data, next);
      assert end == next + ChannelSize(layout) * |rest|;
      PrintAllBack(layout, data, next, end);
      PrintChannelBack(layout, data, i);
      assert data[i..next] + data[next..end] == data[i..end];
    }
  }

  /** Printing an accepted frame reproduces its bytes, up to a trailing partial channel. */
  lemma PrintsBack(data: seq<byte>)
    requires Parse(data).Some?
    ensures var layout := LayoutOf(data).value;
      var header, f := HeaderSize(layout), Parse(data).value;
      var n := |f.channels|;
      && IsHeader(layout, data[..header]) && f.version == Version(layout)
      && n == (|data| - header) / ChannelSize(layout)
      && (forall c <- f.channels :: InRange(layout, c))
      && |data| - header - ChannelSize(layout) * n < ChannelSize(layout)
      && data[..header] + Print(layout, Kinds(layout, data, header), f.channels)
         == data[..header + ChannelSize(layout) * n]
  {
    var layout := LayoutOf(data).value;
    var header := HeaderSize(layout);
    var end := header + ChannelSize(layout) * |Channels(layout, data, header)|;
    ChannelCount(layout, data, header);
    ChannelsInRange(layout, data, header);
    PrintAllBack(layout, data, header, end);
    assert data[..header] + data[header..end] == data[..end];
  }
}
