/**
 * `LeaderboardService`: keeps one trending message in the channel up to date. Each
 * `update_once` rebuilds the 1-based `rank_map` from the current leaderboard, renders it, and
 * either sends a new message or edits the stored one, sending a new one when the edit is refused.
 * Telegram's answers are inputs: what `edit_message_text` did and what `send_message` returned.
 */
module Leaderboard {
  import opened Wrappers
  import opened Text
  import opened Db
  import opened Formatters

  /** What `edit_message_text` did: succeeded, raised `TelegramBadRequest`, or raised something else. */
  datatype EditOutcome = Edited | BadRequest | EditFailed

  /** What `send_message` did: returned a message with this id, or raised. */
  datatype SendOutcome = Sent(messageId: int) | SendFailed

  /** The number of rows the trending message shows. */
  const TrendingLimit: int := 15

  /** `{it["key"]: i for i, it in enumerate(items, start=1)}`: a later duplicate key overwrites an earlier one. */
  function RankMapOf(items: seq<LeaderRow>): map<string, int>
  {
    if items == [] then map[] else RankMapOf(items[..|items| - 1])[items[|items| - 1].key := |items|]
  }

  /** Every key of the list is ranked. */
  lemma {:induction false} RankMapCovers(items: seq<LeaderRow>, i: int)
    requires 0 <= i < |items|
    ensures items[i].key in RankMapOf(items)
  {
    if i < |items| - 1 {
      var init := items[..|items| - 1];
      assert init[i] == items[i];
      RankMapCovers(init, i);
    }
  }

  /** Every ranked key holds its rank's 1-based position in the list. */
  lemma {:induction false} RankMapSound(items: seq<LeaderRow>, k: string)
    requires k in RankMapOf(items)
    ensures 1 <= RankMapOf(items)[k] <= |items| && items[RankMapOf(items)[k] - 1].key == k
  {
    if items != [] && k != items[|items| - 1].key {
      var init := items[..|items| - 1];
      RankMapSound(init, k);
      assert init[RankMapOf(init)[k] - 1] == items[RankMapOf(init)[k] - 1];
    }
  }

  /**
   * With distinct keys, as the leaderboard query returns them, each key maps to its own 1-based
   * position, and nothing but those keys is ranked.
   */
  lemma {:induction false} RankMapPositions(items: seq<LeaderRow>)
    requires KeysDistinct(items)
    ensures forall i | 0 <= i < |items| :: items[i].key in RankMapOf(items) && RankMapOf(items)[items[i].key] == i + 1
    ensures forall k | k in RankMapOf(items) :: exists i | 0 <= i < |items| :: items[i].key == k
  {
    var m := RankMapOf(items);
    forall i | 0 <= i < |items| ensures items[i].key in m && m[items[i].key] == i + 1 {
      RankMapCovers(items, i);
      RankMapSound(items, items[i].key);
    }
    forall k | k in m ensures exists i | 0 <= i < |items| :: items[i].key == k {
      RankMapSound(items, k);
    }
  }

  /** `if not self.message_id`: no id, or the falsy id 0. */
  predicate HasMessage(id: Option<int>)
  {
    id.Some? && id.value != 0
  }

  class LeaderboardService {
    var channelId: int
    var updatedBy: string
    var windowSeconds: int
    var intervalSeconds: real
    var messageId: Option<int>
    var rankMap: map<string, int>

    /** `__init__`: leading `@`s are stripped from `updated_by` and the window is turned into seconds. */
    constructor(trendingChannelId: int, updatedByName: string, windowMinutes: int, interval: real)
      ensures channelId == trendingChannelId && intervalSeconds == interval
      ensures updatedBy == StripLeading(updatedByName, '@') && (updatedBy == [] || updatedBy[0] != '@')
      ensures windowSeconds == windowMinutes * 60
      ensures messageId == None && rankMap == map[]
    {
      channelId := trendingChannelId;
      updatedBy := StripLeading(updatedByName, '@');
      windowSeconds := windowMinutes * 60;
      intervalSeconds := interval;
      messageId := None;
      rankMap := map[];
    }

    /** `set_message_id(message_id)`: stores the id (used when the message was pinned by hand). */
    method SetMessageId(id: int)
      modifies this
      ensures messageId == Some(id)
      ensures channelId == old(channelId) && updatedBy == old(updatedBy) && windowSeconds == old(windowSeconds)
      ensures intervalSeconds == old(intervalSeconds) && rankMap == old(rankMap)
    {
      messageId := Some(id);
    }

    /**
     * `update_once()` at time `now`. `ok` is false when the call raised. The rank map is
     * replaced before any delivery, so it is refreshed even when delivery then fails.
     */
    method UpdateOnce(db: Database, now: int, edit: EditOutcome, send: SendOutcome)
      returns (text: string, ok: bool)
      modifies this
      ensures rankMap == RankMapOf(Leaderboard(db.buys, now, windowSeconds, TrendingLimit))
      ensures text == JoinLines(LeaderboardLines(Leaderboard(db.buys, now, windowSeconds, TrendingLimit), updatedBy))
      ensures !HasMessage(old(messageId)) ==>
        (send.Sent? ==> ok && messageId == Some(send.messageId)) && (send.SendFailed? ==> !ok && messageId == old(messageId))
      ensures HasMessage(old(messageId)) && edit.Edited? ==> ok && messageId == old(messageId)
      ensures HasMessage(old(messageId)) && edit.BadRequest? ==>
        (send.Sent? ==> ok && messageId == Some(send.messageId)) && (send.SendFailed? ==> !ok && messageId == old(messageId))
      ensures HasMessage(old(messageId)) && edit.EditFailed? ==> !ok && messageId == old(messageId)
      ensures channelId == old(channelId) && updatedBy == old(updatedBy) && windowSeconds == old(windowSeconds)
      ensures intervalSeconds == old(intervalSeconds)
    {
      text := Refresh(db, now);
      ok := Deliver(edit, send);
    }

    /** The first half of `update_once`: queries the leaderboard, replaces `rank_map` and renders the text. */
    method Refresh(db: Database, now: int) returns (text: string)
      modifies this
      ensures rankMap == RankMapOf(Leaderboard(db.buys, now, windowSeconds, TrendingLimit))
      ensures text == JoinLines(LeaderboardLines(Leaderboard(db.buys, now, windowSeconds, TrendingLimit), updatedBy))
      ensures channelId == old(channelId) && updatedBy == old(updatedBy) && windowSeconds == old(windowSeconds)
      ensures intervalSeconds == old(intervalSeconds) && messageId == old(messageId)
    {
      var items := db.GetRecentLeaderboard(now, windowSeconds, TrendingLimit);
      rankMap := BuildRankMap(items);
      text := FormatLeaderboard(items, updatedBy);
    }

    /**
     * The delivery half of `update_once`: without a message a new one is sent; with one, a
     * successful edit keeps the id and a refused edit (`TelegramBadRequest`) sends a new message
     * whose id replaces it; any other failure raises and leaves the id as it was.
     */
    method Deliver(edit: EditOutcome, send: SendOutcome) returns (ok: bool)
      modifies this
      ensures !HasMessage(old(messageId)) ==>
        (send.Sent? ==> ok && messageId == Some(send.messageId)) && (send.SendFailed? ==> !ok && messageId == old(messageId))
      ensures HasMessage(old(messageId)) && edit.Edited? ==> ok && messageId == old(messageId)
      ensures HasMessage(old(messageId)) && edit.BadRequest? ==>
        (send.Sent? ==> ok && messageId == Some(send.messageId)) && (send.SendFailed? ==> !ok && messageId == old(messageId))
      ensures HasMessage(old(messageId)) && edit.EditFailed? ==> !ok && messageId == old(messageId)
      ensures channelId == old(channelId) && updatedBy == old(updatedBy) && windowSeconds == old(windowSeconds)
      ensures intervalSeconds == old(intervalSeconds) && rankMap == old(rankMap)
    {
      if !HasMessage(messageId) {
        if send.SendFailed? {
          return false;
        }
        messageId := Some(send.messageId);
        return true;
      }
      match edit {
        case Edited =>
          ok := true;
        case BadRequest =>
          if send.SendFailed? {
            return false;
          }
          messageId := Some(send.messageId);
          ok := true;
        case EditFailed =>
          ok := false;
      }
    }
  }

  /** The comprehension as a loop over `enumerate(items, start=1)`. */
  method BuildRankMap(items: seq<LeaderRow>) returns (m: map<string, int>)
    ensures m == RankMapOf(items)
  {
    m := map[];
    var i := 0;
    while i < |items|
      invariant 0 <= i <= |items|
      invariant m == RankMapOf(items[..i])
    {
      assert items[..i + 1][..i] == items[..i];
      m := m[items[i].key := i + 1];
      i := i + 1;
    }
    assert items[..|items|] == items;
  }
}
