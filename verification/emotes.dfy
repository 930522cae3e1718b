/** The emote registry: a name -> image URL map merged from several providers
    with last-writer-wins, and the scan of a sentence against it. */
module Emotes {
  import opened Wrappers
  import opened Text

  type EmoteMap = map<string, string>

  /** A first-party emote as the Helix API returns it; `imageUrl1` stands for
      `getImageUrl(1)`. */
  datatype HelixEmote = HelixEmote(name: string, imageUrl1: string)

  /** The six third-party fetches of `connect`, each fulfilled or rejected. */
  datatype ProviderResults = ProviderResults(
    ffzChannel: Option<EmoteMap>,
    ffzGlobal: Option<EmoteMap>,
    bttvChannel: Option<EmoteMap>,
    bttvGlobal: Option<EmoteMap>,
    sevenTvChannel: Option<EmoteMap>,
    sevenTvGlobal: Option<EmoteMap>)
  {
    /** The order of the `Promise.allSettled` list. */
    function InOrder(): seq<Option<EmoteMap>> {
      [ffzChannel, ffzGlobal, bttvChannel, bttvGlobal, sevenTvChannel, sevenTvGlobal]
    }
  }

  /** The name -> URL object built from a list of first-party emotes:
      entries are applied left to right, so a later duplicate name wins. */
  function FromEntries(es: seq<HelixEmote>): EmoteMap
    decreases |es|
  {
    if es == [] then map[]
    else FromEntries(es[..|es| - 1])[es[|es| - 1].name := es[|es| - 1].imageUrl1]
  }

  /** The registry after spreading every map of `ds` over it, one after the other. */
  function MergeAll(m: EmoteMap, ds: seq<EmoteMap>): EmoteMap
    decreases |ds|
  {
    if ds == [] then m else MergeAll(m, ds[..|ds| - 1]) + ds[|ds| - 1]
  }

  /** What one settled provider adds: its map when fulfilled, nothing when rejected. */
  function Contribution(o: Option<EmoteMap>): EmoteMap {
    o.GetOr(map[])
  }

  function Contributions(rs: seq<Option<EmoteMap>>): seq<EmoteMap> {
    seq(|rs|, i requires 0 <= i < |rs| => Contribution(rs[i]))
  }

  /** The maps `connect` merges, in the order it merges them: the six
      third-party providers, then Twitch channel emotes, then Twitch global emotes. */
  function EmoteSources(p: ProviderResults, channel: seq<HelixEmote>, global: seq<HelixEmote>): seq<EmoteMap> {
    Contributions(p.InOrder()) + [FromEntries(channel), FromEntries(global)]
  }

  /** `scanForEmotes`: nothing for an empty sentence; otherwise, for each piece of
      the sentence split on single spaces, its index mapped to its emote's URL. */
  function Scan(emotes: EmoteMap, sentence: string): map<nat, string> {
    if sentence == [] then map[]
    else
      var words := Split(sentence, ' ');
      map i: nat | i < |words| && words[i] in emotes :: emotes[words[i]]
  }

  /** A name is in `FromEntries(es)` iff some entry has it, and its URL is the
      one of the last entry with that name. */
  lemma {:induction false} FromEntriesLookup(es: seq<HelixEmote>, k: string)
    ensures k in FromEntries(es) <==> exists i :: 0 <= i < |es| && es[i].name == k
    ensures forall j :: 0 <= j < |es| && es[j].name == k && (forall i :: j < i < |es| ==> es[i].name != k)
                        ==> FromEntries(es)[k] == es[j].imageUrl1
  {
    if es != [] {
      var n := |es| - 1;
      var init := es[..n];
      FromEntriesLookup(init, k);
      assert forall i :: 0 <= i < n ==> init[i] == es[i];
      if es[n].name != k {
        if k in FromEntries(es) {
          var i :| 0 <= i < n && init[i].name == k;
          assert es[i].name == k;
        }
      }
    }
  }

  /** Last writer wins: a key is in the merge iff it was in `m` or in one of
      `ds`; its value comes from the last map of `ds` holding it, or from `m`
      when none does. */
  lemma {:induction false} MergeAllLookup(m: EmoteMap, ds: seq<EmoteMap>, k: string)
    ensures k in MergeAll(m, ds) <==> k in m || exists i :: 0 <= i < |ds| && k in ds[i]
    ensures forall j :: 0 <= j < |ds| && k in ds[j] && (forall i :: j < i < |ds| ==> k !in ds[i])
                        ==> MergeAll(m, ds)[k] == ds[j][k]
    ensures (forall i :: 0 <= i < |ds| ==> k !in ds[i]) && k in m ==> MergeAll(m, ds)[k] == m[k]
  {
    if ds != [] {
      var n := |ds| - 1;
      var init := ds[..n];
      MergeAllLookup(m, init, k);
      assert forall i :: 0 <= i < n ==> init[i] == ds[i];
      if k !in ds[n] {
        if k in MergeAll(m, ds) && k !in m {
          var i :| 0 <= i < n && k in init[i];
          assert k in ds[i];
        }
      }
    }
  }

  /** Merging two lists one after the other is merging their concatenation. */
  lemma {:induction false} MergeAllAppend(m: EmoteMap, a: seq<EmoteMap>, b: seq<EmoteMap>)
    ensures MergeAll(MergeAll(m, a), b) == MergeAll(m, a + b)
    decreases |b|
  {
    if b == [] {
      assert a + b == a;
    } else {
      var n := |b| - 1;
      MergeAllAppend(m, a, b[..n]);
      assert (a + b)[..|a| + n] == a + b[..n];
    }
  }

  /** The registry is never reset: every name it held is still there after a merge. */
  lemma MergeAllKeepsNames(m: EmoteMap, ds: seq<EmoteMap>)
    ensures m.Keys <= MergeAll(m, ds).Keys
  {
    forall k | k in m ensures k in MergeAll(m, ds) {
      MergeAllLookup(m, ds, k);
    }
  }

  /** A rejected provider adds nothing: its place in the list is an empty map. */
  lemma RejectedContributesNothing(rs: seq<Option<EmoteMap>>, i: nat, k: string)
    requires i < |rs| && rs[i].None?
    ensures k !in Contributions(rs)[i]
  {
  }

  /** The precedence of `connect`: a Twitch global emote wins over everything,
      a Twitch channel emote over every third-party one, and a name that only
      third-party providers hold takes the value of the last fulfilled one in
      the order FFZ channel, FFZ global, BTTV channel, BTTV global, 7TV
      channel, 7TV global. Names found nowhere keep their previous value. */
  lemma ConnectPrecedence(m: EmoteMap, p: ProviderResults, channel: seq<HelixEmote>, global: seq<HelixEmote>, k: string)
    ensures var r := MergeAll(m, EmoteSources(p, channel, global));
      && (k in FromEntries(global) ==> k in r && r[k] == FromEntries(global)[k])
      && (k !in FromEntries(global) && k in FromEntries(channel) ==> k in r && r[k] == FromEntries(channel)[k])
      && (forall j :: 0 <= j < 6 && k !in FromEntries(global) && k !in FromEntries(channel)
            && p.InOrder()[j].Some? && k in p.InOrder()[j].value
            && (forall i :: j < i < 6 ==> !(p.InOrder()[i].Some? && k in p.InOrder()[i].value))
            ==> k in r && r[k] == p.InOrder()[j].value[k])
      && ((k !in FromEntries(global) && k !in FromEntries(channel)
           && forall i :: 0 <= i < 6 ==> !(p.InOrder()[i].Some? && k in p.InOrder()[i].value))
          ==> (k in r <==> k in m) && (k in m ==> r[k] == m[k]))
  {
    var ds := EmoteSources(p, channel, global);
    MergeAllLookup(m, ds, k);
    assert |ds| == 8;
    assert ds[7] == FromEntries(global) && ds[6] == FromEntries(channel);
    assert forall i :: 0 <= i < 6 ==> ds[i] == Contribution(p.InOrder()[i]);
  }

  /** In a two-word sentence whose second word alone is an emote, the emote
      is reported at index 1 (for instance "hello world" with `world`). */
  lemma ScanFindsSecondWord(first: string, second: string, url: string)
    requires ' ' !in first && ' ' !in second && first != second
    ensures Scan(map[second := url], first + " " + second) == map[1 := url]
  {
    SplitAtFirst(first, second, ' ');
    SplitWithoutSeparator(second, ' ');
    assert first + " " + second == first + [' '] + second;
    assert Split(first + " " + second, ' ') == [first, second];
  }

  /** A doubled space yields an empty piece that keeps its index, so the
      word after it is reported at index 2. */
  lemma ScanKeepsEmptyPieces()
    ensures Scan(map["b" := "u"], "a  b") == map[2 := "u"]
  {
    SplitWithoutSeparator("b", ' ');
    SplitAtFirst("", "b", ' ');
    SplitAtFirst("a", " b", ' ');
    assert "a  b" == "a" + [' '] + " b";
    assert " b" == "" + [' '] + "b";
    assert Split("a  b", ' ') == ["a", "", "b"];
  }
}
