/**
 * The static stream tables of the three layout screens (ui/models/Stream.kt).
 * Each table lists, in declaration order, the slot index, the highest quality
 * the player may select automatically, and the playback URI of the stream.
 */
module Streams {

  datatype StreamSlot = StreamSlot(index: nat, maxQuality: string, uri: string)

  const UriPrefix: string := "https://4c62a87c1810.us-west-2.playback.live-video.net/api/video/v1/us-west-2.049054135175.channel."

  /** The URI of the live channel with the given identifier. */
  function ChannelUri(channel: string): string
  {
    UriPrefix + channel + ".m3u8"
  }

  /** Every entry's `index` is its position in the table (its enum ordinal). */
  predicate IndexedByPosition(table: seq<StreamSlot>)
  {
    forall i :: 0 <= i < |table| ==> table[i].index == i
  }

  /** No two entries of the table play the same URI. */
  predicate DistinctUris(table: seq<StreamSlot>)
  {
    forall i, j :: 0 <= i < j < |table| ==> table[i].uri != table[j].uri
  }

  /** `FirstLayoutStream`: one featured stream and two secondary ones. */
  function FirstLayoutStreams(): (t: seq<StreamSlot>)
    ensures |t| == 3 && IndexedByPosition(t)
    ensures t[0].maxQuality == "1080p" && t[1].maxQuality == "480p" && t[2].maxQuality == "480p"
  {
    [ StreamSlot(0, "1080p", ChannelUri("QidZjoGOhfDp")),
      StreamSlot(1, "480p", ChannelUri("LaSuL3bHBRR7")),
      StreamSlot(2, "480p", ChannelUri("rqyuAWXUrvUS")) ]
  }

  /** `SecondLayoutStream`: two streams shown as equal squares. */
  function SecondLayoutStreams(): (t: seq<StreamSlot>)
    ensures |t| == 2 && IndexedByPosition(t)
    ensures t[0].maxQuality == "1080p" && t[1].maxQuality == "1080p"
  {
    [ StreamSlot(0, "1080p", ChannelUri("FMaC7IMoyDEA")),
      StreamSlot(1, "1080p", ChannelUri("WP4bWqiALo67")) ]
  }

  /** `ThirdLayoutStream`: one large stream and a small inset. */
  function ThirdLayoutStreams(): (t: seq<StreamSlot>)
    ensures |t| == 2 && IndexedByPosition(t)
    ensures t[0].maxQuality == "1080p" && t[1].maxQuality == "480p"
  {
    [ StreamSlot(0, "1080p", ChannelUri("HPz5Ug1fjNTO")),
      StreamSlot(1, "480p", ChannelUri("iNMK0w9JnUkC")) ]
  }

  /** Two channel URIs coincide only when their channel identifiers do. */
  lemma {:induction false} ChannelUriInjective(a: string, b: string)
    requires ChannelUri(a) == ChannelUri(b)
    ensures a == b
  {
    var x := ChannelUri(a);
    assert x[|UriPrefix|..|x| - 5] == a;
    assert ChannelUri(b)[|UriPrefix|..|ChannelUri(b)| - 5] == b;
  }

  /** Distinct channels have distinct URIs. */
  lemma DistinctChannelsDistinctUris(channels: seq<string>)
    requires forall i, j :: 0 <= i < j < |channels| ==> channels[i] != channels[j]
    ensures forall i, j :: 0 <= i < j < |channels| ==> ChannelUri(channels[i]) != ChannelUri(channels[j])
  {
    forall i, j | 0 <= i < j < |channels| ensures ChannelUri(channels[i]) != ChannelUri(channels[j]) {
      if ChannelUri(channels[i]) == ChannelUri(channels[j]) {
        ChannelUriInjective(channels[i], channels[j]);
      }
    }
  }

  /** All seven stream URIs of the application are pairwise distinct. */
  lemma AllUrisDistinct()
    ensures DistinctUris(FirstLayoutStreams() + SecondLayoutStreams() + ThirdLayoutStreams())
  {
    var all := FirstLayoutStreams() + SecondLayoutStreams() + ThirdLayoutStreams();
    var channels := ["QidZjoGOhfDp", "LaSuL3bHBRR7", "rqyuAWXUrvUS", "FMaC7IMoyDEA",
                     "WP4bWqiALo67", "HPz5Ug1fjNTO", "iNMK0w9JnUkC"];
    assert forall i, j :: 0 <= i < j < 7 ==> channels[i] != channels[j] by {
      forall i | 0 <= i < 7 ensures channels[i][0] == "QLrFWHi"[i] { }
    }
    DistinctChannelsDistinctUris(channels);
    assert forall i :: 0 <= i < 7 ==> all[i].uri == ChannelUri(channels[i]) by {
      assert |all| == 7;
      forall i | 0 <= i < 7 ensures all[i].uri == ChannelUri(channels[i]) { }
    }
  }
}
