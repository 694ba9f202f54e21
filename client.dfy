/**
 * The remote data client of the roster bot: how a clan or player tag becomes a
 * URL on the Clash of Clans REST API, and what the decoded answers look like.
 *
 * The HTTP GET itself, its bearer header and its status check are abstracted
 * into a total function from URL to an optional decoded record: `None` stands
 * for any non-200 answer.
 */
module RemoteClient {
  import opened Wrappers

  const ClansEndpoint: string := "https://api.clashofclans.com/v1/clans/"
  const PlayersEndpoint: string := "https://api.clashofclans.com/v1/players/"

  /** The percent-encoding of the reserved character '#'. */
  const EncodedHash: string := "%23"

  /** One member record of a clan's `memberList`. */
  datatype Member = Member(tag: string, name: string)

  /** The decoded clan answer; each field is `None` when its key is missing. */
  datatype Clan = Clan(name: Option<string>, memberList: Option<seq<Member>>)

  /** The decoded player answer; only its `name` key is read. */
  datatype Player = Player(name: Option<string>)

  /** Number of '#' characters in `s`. */
  function CountHash(s: string): nat {
    if s == [] then 0 else (if s[0] == '#' then 1 else 0) + CountHash(s[1..])
  }

  /** The tag as put into a URL path: every '#' becomes "%23", everything else is kept. */
  function EncodeTag(tag: string): (r: string)
    ensures '#' !in r
    ensures |r| == |tag| + 2 * CountHash(tag)
  {
    if tag == [] then []
    else (if tag[0] == '#' then EncodedHash else [tag[0]]) + EncodeTag(tag[1..])
  }

  /** True when "%23" occurs somewhere in `s`. */
  predicate ContainsEncodedHash(s: string) {
    |s| >= 3 && (s[..3] == EncodedHash || ContainsEncodedHash(s[1..]))
  }

  /**
   * The decoding of the "%23" escape: scanning left to right, every "%23"
   * becomes '#' and every other character is kept.
   */
  function DecodeTag(s: string): (r: string)
    ensures |r| <= |s|
  {
    if |s| >= 3 && s[..3] == EncodedHash then "#" + DecodeTag(s[3..])
    else if s == [] then []
    else [s[0]] + DecodeTag(s[1..])
  }

  /** The URL requested for a clan tag. */
  function ClanUrl(clanTag: string): string {
    ClansEndpoint + EncodeTag(clanTag)
  }

  /** The URL requested for a player tag. */
  function PlayerUrl(playerTag: string): string {
    PlayersEndpoint + EncodeTag(playerTag)
  }

  /** `get_clan_members`: the decoded clan, or `None` on a non-200 answer. */
  function FetchClan(clans: string -> Option<Clan>, clanTag: string): Option<Clan> {
    clans(ClanUrl(clanTag))
  }

  /**
   * `get_player_name`: `None` on a non-200 answer, otherwise the `name` key
   * of the decoded player, which may itself be missing.
   */
  function FetchPlayerName(players: string -> Option<Player>, playerTag: string): Option<string> {
    match players(PlayerUrl(playerTag))
    case None => None
    case Some(p) => p.name
  }

  /** Encoding distributes over concatenation, so characters keep their order. */
  lemma {:induction false} EncodeAppend(a: string, b: string)
    ensures EncodeTag(a + b) == EncodeTag(a) + EncodeTag(b)
  {
    if a == [] {
      assert a + b == b;
    } else {
      assert (a + b)[0] == a[0];
      assert (a + b)[1..] == a[1..] + b;
      EncodeAppend(a[1..], b);
    }
  }

  /** A tag without '#' is sent unchanged. */
  lemma {:induction false} EncodeWithoutHash(tag: string)
    requires '#' !in tag
    ensures EncodeTag(tag) == tag
  {
    if tag != [] {
      assert tag[0] in tag;
      assert forall c :: c in tag[1..] ==> c in tag;
      EncodeWithoutHash(tag[1..]);
    }
  }

  /** The first character of an encoded tag: '%' for a '#', the character otherwise. */
  lemma EncodeHead(tag: string)
    requires tag != []
    ensures |EncodeTag(tag)| >= 1
    ensures EncodeTag(tag)[0] == if tag[0] == '#' then '%' else tag[0]
  {
  }

  /** Decoding undoes encoding for every tag that does not already hold "%23". */
  lemma {:induction false} DecodeEncode(tag: string)
    requires !ContainsEncodedHash(tag)
    ensures DecodeTag(EncodeTag(tag)) == tag
  {
    if tag != [] {
      var rest := tag[1..];
      assert !ContainsEncodedHash(rest);
      DecodeEncode(rest);
      var e := EncodeTag(tag);
      if tag[0] == '#' {
        assert e == EncodedHash + EncodeTag(rest);
        assert e[..3] == EncodedHash;
        assert e[3..] == EncodeTag(rest);
      } else {
        assert e == [tag[0]] + EncodeTag(rest);
        assert !(|e| >= 3 && e[..3] == EncodedHash) by {
          if |e| >= 3 && e[..3] == EncodedHash {
            // e[1] == '2' forces rest[0] == '2', and then e[2] == '3' forces
            // rest[1] == '3', so the tag itself would start with "%23".
            EncodeHead(rest);
          }
        }
        assert e[1..] == EncodeTag(rest);
      }
    }
  }

  /** Two "%23"-free clan tags that lead to the same URL are the same tag. */
  lemma ClanUrlInjective(a: string, b: string)
    requires !ContainsEncodedHash(a) && !ContainsEncodedHash(b)
    requires ClanUrl(a) == ClanUrl(b)
    ensures a == b
  {
    var n := |ClansEndpoint|;
    assert EncodeTag(a) == ClanUrl(a)[n..];
    assert EncodeTag(b) == ClanUrl(b)[n..];
    DecodeEncode(a);
    DecodeEncode(b);
  }

  /** Two "%23"-free player tags that lead to the same URL are the same tag. */
  lemma PlayerUrlInjective(a: string, b: string)
    requires !ContainsEncodedHash(a) && !ContainsEncodedHash(b)
    requires PlayerUrl(a) == PlayerUrl(b)
    ensures a == b
  {
    var n := |PlayersEndpoint|;
    assert EncodeTag(a) == PlayerUrl(a)[n..];
    assert EncodeTag(b) == PlayerUrl(b)[n..];
    DecodeEncode(a);
    DecodeEncode(b);
  }
}
