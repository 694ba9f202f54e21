/**
 * The roster formatter of the `roster` command: the clan's member list is
 * reduced to a map keyed by tag, and every requested player tag becomes one
 * numbered line that says whether the player is in the clan.
 *
 * The standalone player lookup is a parameter, so that the formatter stays
 * free of I/O; the command passes `FetchPlayerName` of the remote client.
 */
module RosterFormatter {
  import opened Wrappers
  import opened RemoteClient
  import opened Decimal

  /** Status of a requested player found in the clan: U+2705, a white check mark. */
  const MemberMark: char := '\U{2705}'
  /** Status of a requested player not in the clan: U+274C, a cross mark. */
  const NonMemberMark: char := '\U{274C}'

  const UnknownClanName: string := "Unknown Clan"
  const UnknownPlayerName: string := "Unknown"

  /** The clan's name, or the placeholder when the `name` key is missing. */
  function ClanName(clan: Clan): string {
    clan.name.GetOr(UnknownClanName)
  }

  /** The clan's members, or none when the `memberList` key is missing. */
  function MemberList(clan: Clan): seq<Member> {
    clan.memberList.GetOr([])
  }

  /** The tags occurring in a member list. */
  function TagsOf(members: seq<Member>): set<string> {
    set j | 0 <= j < |members| :: members[j].tag
  }

  /**
   * The member map keyed by tag, built by a dict comprehension over the list:
   * members are inserted in list order, so a later member with the same tag
   * replaces an earlier one.
   */
  function MemberMap(members: seq<Member>): (m: map<string, Member>)
    ensures m.Keys == TagsOf(members)
    ensures forall t :: t in m ==> m[t].tag == t && m[t] in members
  {
    if members == [] then map[]
    else
      var init := members[..|members| - 1];
      var last := members[|members| - 1];
      assert members == init + [last];
      MemberMap(init)[last.tag := last]
  }

  /** The looked-up name, or the placeholder when the lookup gives no name or an empty one. */
  function FallbackName(found: Option<string>): string {
    if found.Some? && found.value != "" then found.value else UnknownPlayerName
  }

  /** The name shown for a requested tag. */
  function NameFor(members: map<string, Member>, tag: string, lookup: string -> Option<string>): string {
    if tag in members then members[tag].name else FallbackName(lookup(tag))
  }

  /** The status shown for a requested tag. */
  function MarkFor(members: map<string, Member>, tag: string): char {
    if tag in members then MemberMark else NonMemberMark
  }

  /** One roster line: the position, ") ", the name in bold, the tag in parentheses, the status. */
  function FormatLine(position: nat, name: string, tag: string, mark: char): string {
    Numeral(position) + ") **" + name + "** (" + tag + ") " + [mark]
  }

  /**
   * The roster lines for the requested tags, built the way the source builds
   * them: the line for the last tag, numbered `|tags|`, is appended to the
   * lines for the tags before it.
   */
  function RosterLines(members: map<string, Member>, tags: seq<string>, lookup: string -> Option<string>): (lines: seq<string>)
    ensures |lines| == |tags|
  {
    if tags == [] then []
    else
      var n := |tags|;
      RosterLines(members, tags[..n - 1], lookup)
        + [FormatLine(n, NameFor(members, tags[n - 1], lookup), tags[n - 1], MarkFor(members, tags[n - 1]))]
  }

  /**
   * The tags the player lookup is called on, in call order: exactly the
   * requested tags that are not in the member map.
   */
  function Queried(members: map<string, Member>, tags: seq<string>): (q: seq<string>)
    ensures |q| <= |tags|
    ensures forall t :: t in q <==> t in tags && t !in members
  {
    if tags == [] then []
    else
      var n := |tags|;
      assert tags == tags[..n - 1] + [tags[n - 1]];
      Queried(members, tags[..n - 1]) + (if tags[n - 1] in members then [] else [tags[n - 1]])
  }

  /** One requested tag is looked up once when it is not in the member map, and not at all otherwise. */
  lemma QueriedOne(members: map<string, Member>, t: string)
    ensures Queried(members, [t]) == if t in members then [] else [t]
  {
    assert [t][..0] == [];
  }

  /**
   * The lookups for two runs of requested tags are those of the first run
   * followed by those of the second: order and repeats are kept.
   */
  lemma {:induction false} QueriedAppend(members: map<string, Member>, a: seq<string>, b: seq<string>)
    ensures Queried(members, a + b) == Queried(members, a) + Queried(members, b)
  {
    if b == [] {
      assert a + b == a;
    } else {
      var n := |b|;
      assert (a + b)[..|a + b| - 1] == a + b[..n - 1];
      assert (a + b)[|a + b| - 1] == b[n - 1];
      QueriedAppend(members, a, b[..n - 1]);
    }
  }

  /**
   * The loop of the `roster` command (and its copy in the reaction handler):
   * over the requested tags numbered from 1, appending one line per tag.
   * Besides the lines it returns the tags it passed to the player lookup.
   */
  method BuildRoster(members: map<string, Member>, tags: seq<string>, lookup: string -> Option<string>)
    returns (result: seq<string>, queried: seq<string>)
    ensures result == RosterLines(members, tags, lookup)
    ensures queried == Queried(members, tags)
  {
    result, queried := [], [];
    for i := 0 to |tags|
      invariant result == RosterLines(members, tags[..i], lookup)
      invariant queried == Queried(members, tags[..i])
    {
      var tag := tags[i];
      var name: string, status: char;
      if tag in members {
        name := members[tag].name;
        status := MemberMark;
      } else {
        queried := queried + [tag];
        name := FallbackName(lookup(tag));
        status := NonMemberMark;
      }
      assert tags[..i + 1][..i] == tags[..i];
      result := result + [FormatLine(i + 1, name, tag, status)];
    }
    assert tags[..|tags|] == tags;
  }

  /** Line k is the line of the k-th requested tag, numbered k + 1. */
  lemma {:induction false} RosterLineAt(members: map<string, Member>, tags: seq<string>, lookup: string -> Option<string>, k: nat)
    requires k < |tags|
    ensures RosterLines(members, tags, lookup)[k]
         == FormatLine(k + 1, NameFor(members, tags[k], lookup), tags[k], MarkFor(members, tags[k]))
  {
    var n := |tags|;
    if k < n - 1 {
      RosterLineAt(members, tags[..n - 1], lookup, k);
    }
  }

  /** A requested tag in the clan shows the member's own name and the check mark, whatever the lookup says. */
  lemma {:induction false} MemberLine(members: map<string, Member>, tags: seq<string>, lookup: string -> Option<string>, k: nat)
    requires k < |tags| && tags[k] in members
    ensures RosterLines(members, tags, lookup)[k] == FormatLine(k + 1, members[tags[k]].name, tags[k], MemberMark)
  {
    RosterLineAt(members, tags, lookup, k);
  }

  /**
   * A requested tag not in the clan shows the looked-up name when it is a
   * non-empty string, "Unknown" otherwise, and the cross mark.
   */
  lemma {:induction false} NonMemberLine(members: map<string, Member>, tags: seq<string>, lookup: string -> Option<string>, k: nat)
    requires k < |tags| && tags[k] !in members
    ensures var found := lookup(tags[k]);
      RosterLines(members, tags, lookup)[k]
      == FormatLine(k + 1, if found.Some? && found.value != "" then found.value else "Unknown", tags[k], NonMemberMark)
  {
    RosterLineAt(members, tags, lookup, k);
  }

  /** Lines are numbered 1, 2, ... without gaps: the number line k starts with is k + 1. */
  lemma {:induction false} NumberingContiguous(members: map<string, Member>, tags: seq<string>, lookup: string -> Option<string>, k: nat)
    requires k < |tags|
    ensures LeadingNumber(RosterLines(members, tags, lookup)[k]) == k + 1
  {
    RosterLineAt(members, tags, lookup, k);
    var name := NameFor(members, tags[k], lookup);
    var rest := ") **" + name + "** (" + tags[k] + ") " + [MarkFor(members, tags[k])];
    assert FormatLine(k + 1, name, tags[k], MarkFor(members, tags[k])) == Numeral(k + 1) + rest;
    LeadingNumberOf(k + 1, rest);
  }

  /** True when `s` ends with `suffix`. */
  predicate EndsWith(s: string, suffix: string) {
    |suffix| <= |s| && s[|s| - |suffix|..] == suffix
  }

  /** Line k ends with the k-th requested tag verbatim in parentheses, then its status mark. */
  lemma {:induction false} LineEndsWithTag(members: map<string, Member>, tags: seq<string>, lookup: string -> Option<string>, k: nat)
    requires k < |tags|
    ensures EndsWith(RosterLines(members, tags, lookup)[k], " (" + tags[k] + ") " + [MarkFor(members, tags[k])])
  {
    RosterLineAt(members, tags, lookup, k);
    var suffix := " (" + tags[k] + ") " + [MarkFor(members, tags[k])];
    var head := Numeral(k + 1) + ") **" + NameFor(members, tags[k], lookup) + "**";
    assert RosterLines(members, tags, lookup)[k] == head + suffix;
    assert (head + suffix)[|head|..] == suffix;
  }

  /** The last character of line k is the check mark exactly when the k-th tag is in the clan. */
  lemma {:induction false} LineMarkIffMember(members: map<string, Member>, tags: seq<string>, lookup: string -> Option<string>, k: nat)
    requires k < |tags|
    ensures var line := RosterLines(members, tags, lookup)[k];
      line != [] && (line[|line| - 1] == MemberMark <==> tags[k] in members)
  {
    RosterLineAt(members, tags, lookup, k);
  }

  /**
   * The player lookup matters only on the tags it is called on: two lookups
   * that agree there give the same roster.
   */
  lemma {:induction false} LookupOnlyForNonMembers(members: map<string, Member>, tags: seq<string>,
                                                   lookup1: string -> Option<string>, lookup2: string -> Option<string>)
    requires forall t :: t in Queried(members, tags) ==> lookup1(t) == lookup2(t)
    ensures RosterLines(members, tags, lookup1) == RosterLines(members, tags, lookup2)
  {
    if tags != [] {
      var n := |tags|;
      var init := tags[..n - 1];
      assert forall t :: t in Queried(members, init) ==> t in Queried(members, tags);
      LookupOnlyForNonMembers(members, init, lookup1, lookup2);
      if tags[n - 1] !in members {
        assert tags[n - 1] in Queried(members, tags);
      }
    }
  }

  /**
   * With duplicate tags in the member list, the member shown for a tag is the
   * last one in the list that carries it.
   */
  lemma {:induction false} LastMemberWins(members: seq<Member>, j: nat)
    requires j < |members|
    requires forall i :: j < i < |members| ==> members[i].tag != members[j].tag
    ensures members[j].tag in MemberMap(members)
    ensures MemberMap(members)[members[j].tag] == members[j]
  {
    var n := |members|;
    if j < n - 1 {
      LastMemberWins(members[..n - 1], j);
    }
  }

  /** Which member a requested tag shows when the member list repeats the tag. */
  lemma {:induction false} DuplicateTagShowsLast(clan: Clan, tags: seq<string>, lookup: string -> Option<string>, k: nat, j: nat)
    requires k < |tags|
    requires j < |MemberList(clan)| && MemberList(clan)[j].tag == tags[k]
    requires forall i :: j < i < |MemberList(clan)| ==> MemberList(clan)[i].tag != tags[k]
    ensures RosterLines(MemberMap(MemberList(clan)), tags, lookup)[k]
         == FormatLine(k + 1, MemberList(clan)[j].name, tags[k], MemberMark)
  {
    LastMemberWins(MemberList(clan), j);
    MemberLine(MemberMap(MemberList(clan)), tags, lookup, k);
  }

  /** A clan answer without `memberList` marks every requested player as not in the clan. */
  lemma {:induction false} MissingMemberListMarksAll(clan: Clan, tags: seq<string>, lookup: string -> Option<string>, k: nat)
    requires clan.memberList.None?
    requires k < |tags|
    ensures var line := RosterLines(MemberMap(MemberList(clan)), tags, lookup)[k];
      line == FormatLine(k + 1, FallbackName(lookup(tags[k])), tags[k], NonMemberMark)
  {
    assert MemberMap(MemberList(clan)) == map[];
    RosterLineAt(MemberMap(MemberList(clan)), tags, lookup, k);
  }

  /** Worked example: member "#P1" named "Alice"; "#P2" is not a member and is looked up as "Bob". */
  lemma ExampleMemberAndLookup(lookup: string -> Option<string>)
    requires lookup("#P2") == Some("Bob")
    ensures RosterLines(MemberMap([Member("#P1", "Alice")]), ["#P1", "#P2"], lookup)
         == ["1) **Alice** (#P1) \U{2705}", "2) **Bob** (#P2) \U{274C}"]
  {
    var members := MemberMap([Member("#P1", "Alice")]);
    var tags := ["#P1", "#P2"];
    assert members == map["#P1" := Member("#P1", "Alice")];
    assert "#P2" !in members;
    assert Numeral(1) == "1" && Numeral(2) == "2";
    RosterLineAt(members, tags, lookup, 0);
    RosterLineAt(members, tags, lookup, 1);
    assert FormatLine(1, "Alice", "#P1", MemberMark) == "1) **Alice** (#P1) \U{2705}";
    assert FormatLine(2, "Bob", "#P2", NonMemberMark) == "2) **Bob** (#P2) \U{274C}";
  }

  /** Worked example: "#P9" is not a member and the lookup finds nothing. */
  lemma ExampleUnknownPlayer(lookup: string -> Option<string>)
    requires lookup("#P9").None?
    ensures RosterLines(MemberMap([Member("#P1", "Alice")]), ["#P9"], lookup)
         == ["1) **Unknown** (#P9) \U{274C}"]
  {
    var members := MemberMap([Member("#P1", "Alice")]);
    assert members == map["#P1" := Member("#P1", "Alice")];
    assert "#P9" !in members;
    assert Numeral(1) == "1";
    RosterLineAt(members, ["#P9"], lookup, 0);
    assert FormatLine(1, "Unknown", "#P9", NonMemberMark) == "1) **Unknown** (#P9) \U{274C}";
  }
}
