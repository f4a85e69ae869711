/**
 * StorageService: per-chat histories, user names, mute flags and per-user
 * profiles held in memory (persistence to db.json and profiles.json is not
 * modelled).
 */
module Storage {
  import opened Wrappers
  import opened Text

  /** One line of a chat history: who spoke and what was said. */
  datatype ChatMessage = ChatMessage(role: string, text: string)

  /** The stored state of one chat. */
  datatype ChatData = ChatData(chatId: string, history: seq<ChatMessage>, users: map<string, string>, muted: bool)

  /** What the bot remembers about one user. */
  datatype UserProfile = UserProfile(realName: Option<string>, facts: string, attitude: string, relationship: int)

  /** A fresh profile: no name, no facts, neutral attitude, relationship 50. */
  const DefaultProfile := UserProfile(None, "", "Нейтральное", 50)

  /** `new ChatData(chatId)`: empty history, no users, not muted. */
  function NewChat(chatId: string): ChatData
  {
    ChatData(chatId, [], map[], false)
  }

  /** `chats.computeIfAbsent(chatId, ...)`: the stored chat, or a new one. */
  function ChatOrNew(chats: map<string, ChatData>, chatId: string): (c: ChatData)
    ensures chatId !in chats ==> c == NewChat(chatId)
  {
    if chatId in chats then chats[chatId] else NewChat(chatId)
  }

  /** The last `n` elements of `s`, or all of `s` when it is shorter. */
  function Window<T>(s: seq<T>, n: nat): (r: seq<T>)
    ensures |r| == (if |s| < n then |s| else n)
    ensures forall k | 0 <= k < |r| :: r[k] == s[|s| - |r| + k]
  {
    if |s| > n then s[|s| - n..] else s
  }

  /** One history line rendered as `role: text`. */
  function Line(m: ChatMessage): string
  {
    m.role + ": " + m.text
  }

  /** A history rendered as `role: text` lines joined by newlines ("" when empty). */
  function HistoryBlock(msgs: seq<ChatMessage>): (r: string)
    ensures msgs == [] ==> r == []
    ensures |msgs| == 1 ==> r == Line(msgs[0])
  {
    Join(seq(|msgs|, k requires 0 <= k < |msgs| => Line(msgs[k])), "\n")
  }

  /** Each further message adds a newline and its line to a non-empty rendering. */
  lemma HistoryBlockAppend(msgs: seq<ChatMessage>, msg: ChatMessage)
    requires msgs != []
    ensures HistoryBlock(msgs + [msg]) == HistoryBlock(msgs) + "\n" + Line(msg)
  {
    var all := msgs + [msg];
    var lines := seq(|all|, k requires 0 <= k < |all| => Line(all[k]));
    var front := seq(|msgs|, k requires 0 <= k < |msgs| => Line(msgs[k]));
    assert lines[..|lines| - 1] == front;
    assert lines[|lines| - 1] == Line(msg);
  }

  /**
   * `addToHistory`'s effect on one history: append, then drop the single oldest
   * entry when the result is longer than `contextSize`.
   */
  function Appended(history: seq<ChatMessage>, msg: ChatMessage, contextSize: int): (r: seq<ChatMessage>)
    ensures |history| < contextSize ==> r == history + [msg]
    ensures 0 < |history| && contextSize <= |history| ==> r == history[1..] + [msg]
    ensures |history| == 0 && contextSize <= 0 ==> r == []
  {
    var h := history + [msg];
    if |h| > contextSize then h[1..] else h
  }

  /** Several `addToHistory` calls on one chat, in order. */
  function AppendedAll(history: seq<ChatMessage>, msgs: seq<ChatMessage>, contextSize: int): seq<ChatMessage>
    decreases |msgs|
  {
    if msgs == [] then history
    else AppendedAll(Appended(history, msgs[0], contextSize), msgs[1..], contextSize)
  }

  /**
   * A history that respects the configured size stays the window of the last
   * `contextSize` messages however many messages are added.
   */
  lemma {:induction false} HistoryKeepsLastN(history: seq<ChatMessage>, msgs: seq<ChatMessage>, contextSize: nat)
    requires |history| <= contextSize
    ensures AppendedAll(history, msgs, contextSize) == Window(history + msgs, contextSize)
    decreases |msgs|
  {
    if msgs == [] {
      assert history + msgs == history;
    } else {
      var h1 := history + [msgs[0]];
      var next := Appended(history, msgs[0], contextSize);
      AppendedIsWindow(history, msgs[0], contextSize);
      calc {
        AppendedAll(history, msgs, contextSize);
        AppendedAll(next, msgs[1..], contextSize);
        { HistoryKeepsLastN(next, msgs[1..], contextSize); }
        Window(next + msgs[1..], contextSize);
        { WindowOfWindow(h1, msgs[1..], contextSize); }
        Window(h1 + msgs[1..], contextSize);
        { assert h1 + msgs[1..] == history + msgs; }
        Window(history + msgs, contextSize);
      }
    }
  }

  /** One message added to a history that respects the size gives the window of the last `contextSize`. */
  lemma AppendedIsWindow(history: seq<ChatMessage>, msg: ChatMessage, contextSize: nat)
    requires |history| <= contextSize
    ensures |Appended(history, msg, contextSize)| <= contextSize
    ensures Appended(history, msg, contextSize) == Window(history + [msg], contextSize)
  {
    var h1 := history + [msg];
    if |h1| > contextSize {
      assert Appended(history, msg, contextSize) == h1[1..];
      assert |h1| - contextSize == 1;
    }
  }

  lemma WindowOfWindow<T>(s: seq<T>, rest: seq<T>, n: nat)
    ensures Window(Window(s, n) + rest, n) == Window(s + rest, n)
  {
    var w := Window(s, n);
    var a := Window(w + rest, n);
    var b := Window(s + rest, n);
    assert |a| == |b|;
    forall k | 0 <= k < |a|
      ensures a[k] == b[k]
    {
      var i := |w + rest| - |a| + k;
      var j := |s + rest| - |b| + k;
      if i < |w| {
        assert (w + rest)[i] == w[i] == s[|s| - |w| + i];
        assert j == |s| - |w| + i;
      } else {
        assert (w + rest)[i] == rest[i - |w|];
      }
    }
  }

  /**
   * A history already longer than `contextSize` (the size was lowered) does
   * not shrink: each addition drops exactly one entry.
   */
  lemma OversizedHistoryKeepsLength(history: seq<ChatMessage>, msg: ChatMessage, contextSize: int)
    requires |history| > contextSize
    ensures |Appended(history, msg, contextSize)| == |history|
  {
  }

  /** The in-memory chat state of the service. */
  datatype ChatState = ChatState(chats: map<string, ChatData>, muted: set<string>)
  {
    /** The mute set names exactly the chats whose flag is set. */
    ghost predicate Valid()
    {
      forall id :: id in muted <==> id in chats && chats[id].muted
    }
  }

  /** `getChat`: make sure the chat exists. */
  function Touch(st: ChatState, chatId: string): (r: ChatState)
    ensures chatId in r.chats && r.muted == st.muted
    ensures forall id | id in st.chats :: id in r.chats && r.chats[id] == st.chats[id]
  {
    st.(chats := st.chats[chatId := ChatOrNew(st.chats, chatId)])
  }

  /** `toggleMute`: flip the chat's membership in the mute set and its flag with it. */
  function Toggle(st: ChatState, chatId: string): (r: ChatState)
    ensures (chatId in r.muted) == (chatId !in st.muted)
    ensures chatId in r.chats && r.chats[chatId].muted == (chatId in r.muted)
  {
    var c := ChatOrNew(st.chats, chatId);
    if chatId in st.muted then
      ChatState(st.chats[chatId := c.(muted := false)], st.muted - {chatId})
    else
      ChatState(st.chats[chatId := c.(muted := true)], st.muted + {chatId})
  }

  /** Toggling keeps the mute set and the flags in agreement. */
  lemma ToggleKeepsValid(st: ChatState, chatId: string)
    requires st.Valid()
    ensures Toggle(st, chatId).Valid()
  {
  }

  /**
   * Toggling twice restores the state, except that the chat now exists if it
   * did not before.
   */
  lemma ToggleTwice(st: ChatState, chatId: string)
    requires st.Valid()
    ensures Toggle(Toggle(st, chatId), chatId) == Touch(st, chatId)
  {
    var once := Toggle(st, chatId);
    var twice := Toggle(once, chatId);
    var touched := Touch(st, chatId);
    assert twice.muted == touched.muted;
    assert twice.chats[chatId] == touched.chats[chatId];
    assert twice.chats == touched.chats;
  }

  /** `addToHistory` on the chat state. */
  function AddMessage(st: ChatState, chatId: string, msg: ChatMessage, contextSize: int): ChatState
  {
    var c := ChatOrNew(st.chats, chatId);
    st.(chats := st.chats[chatId := c.(history := Appended(c.history, msg, contextSize))])
  }

  /** The muted chats found in loaded data, by the ids the chats carry. */
  function MutedIds(chats: map<string, ChatData>): set<string>
  {
    set c | c in chats.Values && c.muted :: c.chatId
  }

  /** Every chat is stored under its own id, as `save` writes them. */
  ghost predicate KeysMatch(chats: map<string, ChatData>)
  {
    forall id | id in chats :: chats[id].chatId == id
  }

  /** Rebuilding the mute set from saved chats agrees with their flags. */
  lemma LoadedStateValid(chats: map<string, ChatData>)
    requires KeysMatch(chats)
    ensures ChatState(chats, MutedIds(chats)).Valid()
  {
    forall id
      ensures id in MutedIds(chats) <==> id in chats && chats[id].muted
    {
      if id in chats && chats[id].muted {
        assert chats[id] in chats.Values;
      }
      if id in MutedIds(chats) {
        var c :| c in chats.Values && c.muted && c.chatId == id;
        var k :| k in chats && chats[k] == c;
      }
    }
  }

  /** `getProfile`'s answer: the stored profile, or a fresh default one. */
  function ProfileOrDefault(profiles: map<string, map<string, UserProfile>>, chatId: string, userId: string): UserProfile
  {
    if chatId in profiles && userId in profiles[chatId] then profiles[chatId][userId] else DefaultProfile
  }

  /** `updateProfile`: store a profile for a user of a chat, creating the chat's table if needed. */
  function StoreProfile(profiles: map<string, map<string, UserProfile>>, chatId: string, userId: string, p: UserProfile)
    : map<string, map<string, UserProfile>>
  {
    var inner := if chatId in profiles then profiles[chatId] else map[];
    profiles[chatId := inner[userId := p]]
  }

  /**
   * A stored profile is read back unchanged: the relationship score is kept
   * as given, with no clamping to 0..100, and other users' profiles are untouched.
   */
  lemma StoredProfileReadBack(profiles: map<string, map<string, UserProfile>>, chatId: string, userId: string,
                              p: UserProfile, otherChat: string, otherUser: string)
    requires otherChat != chatId || otherUser != userId
    ensures ProfileOrDefault(StoreProfile(profiles, chatId, userId, p), chatId, userId) == p
    ensures ProfileOrDefault(StoreProfile(profiles, chatId, userId, p), otherChat, otherUser)
         == ProfileOrDefault(profiles, otherChat, otherUser)
  {
  }

  /** Where a saved data file stands when the service starts. */
  datatype Loaded<T> = Missing | Parsed(value: Option<T>) | Unreadable

  class StorageService {
    var chats: map<string, ChatData>
    var profiles: map<string, map<string, UserProfile>>
    var mutedChats: set<string>

    function State(): ChatState
      reads this
    {
      ChatState(chats, mutedChats)
    }

    /**
     * Starts empty, then loads: a parsed non-null file replaces the maps, the
     * mute set is rebuilt from the chats' own ids and flags whenever db.json
     * was read, and an unreadable file leaves an empty map.
     */
    constructor (db: Loaded<map<string, ChatData>>, saved: Loaded<map<string, map<string, UserProfile>>>)
      ensures chats == (match db
                        case Parsed(Some(m)) => m
                        case _ => map[])
      ensures mutedChats == (if db.Parsed? then MutedIds(chats) else {})
      ensures profiles == (match saved
                           case Parsed(Some(m)) => m
                           case _ => map[])
      ensures KeysMatch(chats) ==> State().Valid()
    {
      chats := map[];
      profiles := map[];
      mutedChats := {};
      new;
      match db {
        case Missing =>
        case Parsed(loaded) =>
          if loaded.Some? {
            chats := loaded.value;
          }
          mutedChats := MutedIds(chats);
        case Unreadable =>
          chats := map[];
      }
      match saved {
        case Missing =>
        case Parsed(loaded) =>
          if loaded.Some? {
            profiles := loaded.value;
          }
        case Unreadable =>
          profiles := map[];
      }
      if KeysMatch(chats) {
        if db.Parsed? {
          LoadedStateValid(chats);
        }
      }
    }

    /** `getChat`: the chat's current data, created on first use. */
    method GetChat(chatId: string) returns (c: ChatData)
      modifies this
      ensures State() == Touch(old(State()), chatId) && profiles == old(profiles)
      ensures c == chats[chatId] == ChatOrNew(old(chats), chatId)
    {
      c := ChatOrNew(chats, chatId);
      chats := chats[chatId := c];
    }

    /** `addToHistory`: append a message, keeping the history within `contextSize`. */
    method AddToHistory(chatId: string, sender: string, text: string, contextSize: int)
      modifies this
      ensures State() == AddMessage(old(State()), chatId, ChatMessage(sender, text), contextSize)
      ensures profiles == old(profiles)
      ensures old(State().Valid()) ==> State().Valid()
    {
      var c := GetChat(chatId);
      chats := chats[chatId := c.(history := Appended(c.history, ChatMessage(sender, text), contextSize))];
    }

    /** `getHistory`: the chat's history, creating the chat on first use. */
    method GetHistory(chatId: string) returns (h: seq<ChatMessage>)
      modifies this
      ensures h == ChatOrNew(old(chats), chatId).history
      ensures State() == Touch(old(State()), chatId) && profiles == old(profiles)
    {
      var c := GetChat(chatId);
      h := c.history;
    }

    /** `trackUser`: remember the user's current name in the chat. */
    method TrackUser(chatId: string, userId: string, username: string)
      modifies this
      ensures var c := ChatOrNew(old(chats), chatId);
        chats == old(chats)[chatId := c.(users := c.users[userId := username])]
      ensures mutedChats == old(mutedChats) && profiles == old(profiles)
      ensures old(State().Valid()) ==> State().Valid()
    {
      var c := GetChat(chatId);
      chats := chats[chatId := c.(users := c.users[userId := username])];
    }

    /** `getProfile`: the stored profile, a default one being stored on first use. */
    method GetProfile(chatId: string, userId: string) returns (p: UserProfile)
      modifies this
      ensures p == ProfileOrDefault(old(profiles), chatId, userId)
      ensures profiles == StoreProfile(old(profiles), chatId, userId, p)
      ensures chats == old(chats) && mutedChats == old(mutedChats)
    {
      if chatId !in profiles {
        profiles := profiles[chatId := map[]];
      }
      var inner := profiles[chatId];
      if userId !in inner {
        inner := inner[userId := DefaultProfile];
        profiles := profiles[chatId := inner];
      }
      p := inner[userId];
      assert inner == inner[userId := p];
    }

    /** `updateProfile`: replace one user's profile. */
    method UpdateProfile(chatId: string, userId: string, profile: UserProfile)
      modifies this
      ensures profiles == StoreProfile(old(profiles), chatId, userId, profile)
      ensures chats == old(chats) && mutedChats == old(mutedChats)
    {
      if chatId !in profiles {
        profiles := profiles[chatId := map[]];
      }
      profiles := profiles[chatId := profiles[chatId][userId := profile]];
    }

    /** `bulkUpdateProfiles`: replace the given users' profiles, keeping the others. */
    method BulkUpdateProfiles(chatId: string, updates: map<string, UserProfile>)
      modifies this
      ensures chatId in profiles
      ensures profiles[chatId] == (if chatId in old(profiles) then old(profiles)[chatId] else map[]) + updates
      ensures forall other | other != chatId :: (other in profiles <==> other in old(profiles))
      ensures forall other | other != chatId && other in profiles :: profiles[other] == old(profiles)[other]
      ensures chats == old(chats) && mutedChats == old(mutedChats)
    {
      if chatId !in profiles {
        profiles := profiles[chatId := map[]];
      }
      profiles := profiles[chatId := profiles[chatId] + updates];
    }

    /** `isMuted`. */
    predicate IsMuted(chatId: string)
      reads this
    {
      chatId in mutedChats
    }

    /** `toggleMute`: mute an unmuted chat and unmute a muted one. */
    method ToggleMute(chatId: string)
      modifies this
      ensures State() == Toggle(old(State()), chatId) && profiles == old(profiles)
      ensures IsMuted(chatId) == !old(IsMuted(chatId))
      ensures old(State().Valid()) ==> State().Valid()
    {
      if chatId in mutedChats {
        mutedChats := mutedChats - {chatId};
        var c := GetChat(chatId);
        chats := chats[chatId := c.(muted := false)];
      } else {
        mutedChats := mutedChats + {chatId};
        var c := GetChat(chatId);
        chats := chats[chatId := c.(muted := true)];
      }
      if old(State().Valid()) {
        ToggleKeepsValid(old(State()), chatId);
      }
    }

    /** `clearHistory`: forget the chat's messages, keeping users and mute flag. */
    method ClearHistory(chatId: string)
      modifies this
      ensures var c := ChatOrNew(old(chats), chatId);
        chats == old(chats)[chatId := c.(history := [])]
      ensures mutedChats == old(mutedChats) && profiles == old(profiles)
      ensures old(State().Valid()) ==> State().Valid()
    {
      var c := GetChat(chatId);
      chats := chats[chatId := c.(history := [])];
    }
  }
}
