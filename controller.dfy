/**
 * The `roster` command and its refresh handler. The command fetches the clan,
 * formats the roster and posts it; the reaction handler, bound to the posted
 * message, re-runs the same fetch and format when a person (not a bot) adds
 * the refresh reaction to that very message, and edits the player list.
 *
 * The remote API is a pair of total functions from URL to decoded answer.
 * Sending, editing, embeds, timestamps and handler registration are left to
 * the chat library and are not modelled; a reply datatype says what would be
 * sent or edited.
 */
module RosterCommand {
  import opened Wrappers
  import opened RemoteClient
  import opened RosterFormatter

  /** The notice sent when the clan cannot be fetched. */
  const FetchErrorNotice: string := "Error fetching clan members."

  /** The refresh reaction: U+1F504, anticlockwise arrows. */
  const RefreshEmoji: string := "\U{1F504}"

  /** The remote API: clan and player answers by URL, `None` for a non-200 status. */
  datatype Api = Api(clans: string -> Option<Clan>, players: string -> Option<Player>)

  /** What the command sends: an error notice, or a roster titled with the clan's name. */
  datatype Reply = Notice(text: string) | Posted(clanName: string, lines: seq<string>)

  /** What is captured when the roster is posted: the command's arguments and the message id. */
  datatype Session = Session(clanTag: string, playerTags: seq<string>, messageId: int)

  /** A reaction as the handler sees it. */
  datatype Reaction = Reaction(emoji: string, messageId: int)

  /** What the reaction handler does: nothing, send an error notice, or edit the player list. */
  datatype RefreshReply = Ignored | RefreshNotice(text: string) | Edited(lines: seq<string>)

  /** The standalone player lookup the formatter falls back on. */
  function Lookup(api: Api): string -> Option<string> {
    t => FetchPlayerName(api.players, t)
  }

  /** The clan's answer reduced to the roster lines for the requested tags. */
  function ClanRoster(clan: Clan, playerTags: seq<string>, api: Api): seq<string> {
    RosterLines(MemberMap(MemberList(clan)), playerTags, Lookup(api))
  }

  /** The `roster` command up to the point where the embed is built. */
  function Roster(api: Api, clanTag: string, playerTags: seq<string>): (r: Reply)
    ensures r.Notice? <==> FetchClan(api.clans, clanTag).None?
    ensures r.Notice? ==> r.text == FetchErrorNotice
    ensures r.Posted? ==> |r.lines| == |playerTags|
    ensures r.Posted? ==> var clan := FetchClan(api.clans, clanTag).value;
      r.clanName == if clan.name.Some? then clan.name.value else "Unknown Clan"
  {
    match FetchClan(api.clans, clanTag)
    case None => Notice(FetchErrorNotice)
    case Some(clan) => Posted(ClanName(clan), ClanRoster(clan, playerTags, api))
  }

  /** The guard of `on_reaction_add`. */
  predicate RefreshGuard(session: Session, reaction: Reaction, userIsBot: bool) {
    !userIsBot && reaction.emoji == RefreshEmoji && reaction.messageId == session.messageId
  }

  /**
   * `on_reaction_add`: when the guard holds, the clan is fetched again with the
   * captured arguments; the clan name is recomputed by the source but never
   * used, so only the player list is edited.
   */
  function OnReactionAdd(session: Session, reaction: Reaction, userIsBot: bool, api: Api): (r: RefreshReply)
    ensures r.Ignored? <==> !(!userIsBot && reaction.emoji == RefreshEmoji && reaction.messageId == session.messageId)
    ensures r.RefreshNotice? <==> RefreshGuard(session, reaction, userIsBot) && FetchClan(api.clans, session.clanTag).None?
    ensures r.RefreshNotice? ==> r.text == FetchErrorNotice
    ensures r.Edited? <==> RefreshGuard(session, reaction, userIsBot) && FetchClan(api.clans, session.clanTag).Some?
    ensures r.Edited? ==> |r.lines| == |session.playerTags|
  {
    if !RefreshGuard(session, reaction, userIsBot) then Ignored
    else
      match FetchClan(api.clans, session.clanTag)
      case None => RefreshNotice(FetchErrorNotice)
      case Some(clan) => Edited(ClanRoster(clan, session.playerTags, api))
  }

  /** The `roster` command: fetch the clan, then run the roster loop. */
  method RunRoster(api: Api, clanTag: string, playerTags: seq<string>) returns (reply: Reply)
    ensures reply == Roster(api, clanTag, playerTags)
  {
    var clan := FetchClan(api.clans, clanTag);
    if clan.None? {
      return Notice(FetchErrorNotice);
    }
    var lines, _ := BuildRoster(MemberMap(MemberList(clan.value)), playerTags, Lookup(api));
    reply := Posted(ClanName(clan.value), lines);
  }

  /** The reaction handler: check the guard, fetch the clan again, run the roster loop again. */
  method HandleReaction(session: Session, reaction: Reaction, userIsBot: bool, api: Api) returns (reply: RefreshReply)
    ensures reply == OnReactionAdd(session, reaction, userIsBot, api)
  {
    if userIsBot {
      return Ignored;
    }
    if reaction.emoji != RefreshEmoji || reaction.messageId != session.messageId {
      return Ignored;
    }
    var clan := FetchClan(api.clans, session.clanTag);
    if clan.None? {
      return RefreshNotice(FetchErrorNotice);
    }
    var lines, _ := BuildRoster(MemberMap(MemberList(clan.value)), session.playerTags, Lookup(api));
    reply := Edited(lines);
  }

  /** A reaction on any other message never re-renders this one. */
  lemma OtherMessageIgnored(session: Session, reaction: Reaction, userIsBot: bool, api: Api)
    requires reaction.messageId != session.messageId
    ensures OnReactionAdd(session, reaction, userIsBot, api) == Ignored
  {
  }

  /**
   * With the same remote answers, a refresh of a posted roster edits in exactly
   * the lines that were posted; if the command failed to fetch the clan, the
   * refresh sends the same notice and edits nothing.
   */
  lemma RefreshReproducesRoster(api: Api, clanTag: string, playerTags: seq<string>, messageId: int,
                                reaction: Reaction, userIsBot: bool)
    requires RefreshGuard(Session(clanTag, playerTags, messageId), reaction, userIsBot)
    ensures match Roster(api, clanTag, playerTags)
      case Posted(_, lines) => OnReactionAdd(Session(clanTag, playerTags, messageId), reaction, userIsBot, api) == Edited(lines)
      case Notice(text) => OnReactionAdd(Session(clanTag, playerTags, messageId), reaction, userIsBot, api) == RefreshNotice(text)
  {
  }

  /**
   * The end-to-end example: clan "#ABC123" with member "#P1" named "Alice",
   * requested "#P1" and "#P2", and "#P2" looked up as "Bob".
   */
  lemma ExampleAliceBob(api: Api)
    requires api.clans(ClanUrl("#ABC123")) == Some(Clan(Some("Clashers"), Some([Member("#P1", "Alice")])))
    requires api.players(PlayerUrl("#P2")) == Some(Player(Some("Bob")))
    ensures Roster(api, "#ABC123", ["#P1", "#P2"])
         == Posted("Clashers", ["1) **Alice** (#P1) \U{2705}", "2) **Bob** (#P2) \U{274C}"])
  {
    assert Lookup(api)("#P2") == Some("Bob");
    ExampleMemberAndLookup(Lookup(api));
  }

  /** The second example: requested "#P9", for which the player lookup fails. */
  lemma ExampleUnknown(api: Api)
    requires api.clans(ClanUrl("#ABC123")) == Some(Clan(Some("Clashers"), Some([Member("#P1", "Alice")])))
    requires api.players(PlayerUrl("#P9")).None?
    ensures Roster(api, "#ABC123", ["#P9"]) == Posted("Clashers", ["1) **Unknown** (#P9) \U{274C}"])
  {
    assert Lookup(api)("#P9").None?;
    ExampleUnknownPlayer(Lookup(api));
  }
}
