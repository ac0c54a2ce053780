/** The rewards tables and GrantReward as the code runs it when no other call interferes. */
module RewardStore {
  import opened Prelude
  import opened Tally
  import Rewards

  datatype Row = Row(campaign: int, reward: Rewards.Reward, expiresAt: Option<int>)

  datatype UserReward = UserReward(user: int, reward: int, campaign: int, expiresAt: Option<int>)

  datatype Error =
    | RewardNotFound | Unauthorized | InvalidRewardStatus | RewardLimitReached | UserLimitReached | StoreError

  /** The users of one reward's user rewards. */
  function UsersOf(table: seq<UserReward>, id: int): seq<int> {
    if table == [] then []
    else
      var last := table[|table| - 1];
      UsersOf(table[..|table| - 1], id) + (if last.reward == id then [last.user] else [])
  }

  /** SELECT ... WHERE user_id = $1 */
  function ByUser(table: seq<UserReward>, user: int): seq<UserReward> {
    if table == [] then []
    else
      var last := table[|table| - 1];
      ByUser(table[..|table| - 1], user) + (if last.user == user then [last] else [])
  }

  /** How many of a list are for the reward. */
  function Claims(list: seq<UserReward>, id: int): nat {
    if list == [] then 0
    else Claims(list[..|list| - 1], id) + (if list[|list| - 1].reward == id then 1 else 0)
  }

  /** Counting the reward among the user's rows or the user among the reward's rows is the same. */
  lemma {:induction false} ClaimsAreRows(table: seq<UserReward>, user: int, id: int)
    ensures Claims(ByUser(table, user), id) == Rewards.RowsOf(UsersOf(table, id), user)
  {
    if table != [] {
      var init, last := table[..|table| - 1], table[|table| - 1];
      ClaimsAreRows(init, user, id);
      assert (ByUser(init, user) + [last])[..|ByUser(init, user)|] == ByUser(init, user);
      assert (UsersOf(init, id) + [last.user])[..|UsersOf(init, id)|] == UsersOf(init, id);
      assert ByUser(init, user) + [] == ByUser(init, user) && UsersOf(init, id) + [] == UsersOf(init, id);
    }
  }

  /** Both count the rows of the table for that user and that reward. */
  lemma {:induction false} RowsAreNumber(table: seq<UserReward>, user: int, id: int)
    ensures Rewards.RowsOf(UsersOf(table, id), user)
         == Number(table, (u: UserReward) => u.user == user && u.reward == id)
  {
    if table != [] {
      var init, last := table[..|table| - 1], table[|table| - 1];
      RowsAreNumber(init, user, id);
      NumberSnoc(init, last, (u: UserReward) => u.user == user && u.reward == id);
      assert table == init + [last];
      assert (UsersOf(init, id) + [last.user])[..|UsersOf(init, id)|] == UsersOf(init, id);
      assert UsersOf(init, id) + [] == UsersOf(init, id);
    }
  }

  method CountClaims(existing: seq<UserReward>, id: int) returns (claimCount: nat)
    ensures claimCount == Claims(existing, id)
  {
    claimCount := 0;
    for i := 0 to |existing|
      invariant claimCount == Claims(existing[..i], id)
    {
      assert existing[..i + 1][..i] == existing[..i];
      if existing[i].reward == id {
        claimCount := claimCount + 1;
      }
    }
    assert existing[..|existing|] == existing;
  }

  class RewardTables {
    var rewards: map<int, Row>
    var userRewards: seq<UserReward>

    /** SELECT ... WHERE id = $1 AND deleted_at IS NULL */
    function GetRewardByID(id: int): (r: Option<Row>)
      reads this
      ensures r.Some? <==> id in rewards && !rewards[id].reward.deleted
    {
      if id in rewards && !rewards[id].reward.deleted then Some(rewards[id]) else None
    }

    /** Which statements succeed is decided by the database: reading the reward, reading the
        user's rewards, the insert, and the increment, whose failure is only logged. */
    method GrantReward(campaign: int, user: int, id: int, expiresAt: Option<int>,
                       answers: bool, counts: bool, inserts: bool, increments: bool)
      returns (r: Result<UserReward, Error>)
      modifies this
      ensures
        var found := old(GetRewardByID(id));
        var claims := Number(old(userRewards), (u: UserReward) => u.user == user && u.reward == id);
        var error :=
          if !answers then Some(StoreError)
          else if found.None? then Some(RewardNotFound)
          else if found.value.campaign != campaign then Some(Unauthorized)
          else if !found.value.reward.active then Some(InvalidRewardStatus)
          else if found.value.reward.totalAvailable.Some?
                  && found.value.reward.totalClaimed >= found.value.reward.totalAvailable.value
            then Some(RewardLimitReached)
          else if !counts then Some(StoreError)
          else if claims >= found.value.reward.userLimit then Some(UserLimitReached)
          else if !inserts then Some(StoreError)
          else None;
        if error.Some? then r == Err(error.value) && rewards == old(rewards) && userRewards == old(userRewards)
        else
          var row := found.value;
          && r == Ok(UserReward(user, id, campaign, if expiresAt.Some? then expiresAt else row.expiresAt))
          && userRewards == old(userRewards) + [r.value]
          && rewards == if increments
             then old(rewards)[id := row.(reward := row.reward.(totalClaimed := row.reward.totalClaimed + 1))]
             else old(rewards)
    {
      if !answers { return Err(StoreError); }
      var reward := GetRewardByID(id);
      if reward.None? { return Err(RewardNotFound); }
      if reward.value.campaign != campaign { return Err(Unauthorized); }
      if !reward.value.reward.active { return Err(InvalidRewardStatus); }
      if reward.value.reward.totalAvailable.Some?
         && reward.value.reward.totalClaimed >= reward.value.reward.totalAvailable.value {
        return Err(RewardLimitReached);
      }
      if !counts { return Err(StoreError); }
      var claimCount := CountClaims(ByUser(userRewards, user), id);
      ClaimsAreRows(userRewards, user, id);
      RowsAreNumber(userRewards, user, id);
      if claimCount >= reward.value.reward.userLimit { return Err(UserLimitReached); }
      if !inserts { return Err(StoreError); }
      var expiry := reward.value.expiresAt;
      if expiresAt.Some? { expiry := expiresAt; }
      var granted := UserReward(user, id, campaign, expiry);
      userRewards := userRewards + [granted];
      if increments {
        var row := rewards[id];
        rewards := rewards[id := row.(reward := row.reward.(totalClaimed := row.reward.totalClaimed + 1))];
      }
      return Ok(granted);
    }
  }

  /** Four steps of the only call; each says whether its statement succeeds. */
  function FourSteps(s: Rewards.State, answers: bool, counts: bool, inserts: bool, increments: bool): Rewards.State
    requires |s.calls| == 1
  {
    Rewards.ActOn(Rewards.ActOn(Rewards.ActOn(Rewards.ActOn(s, 0, !answers), 0, !counts), 0, !inserts), 0, !increments)
  }

  /** Main result: four steps of a call that finds itself alone, in the machine of the
      interleavings, grant exactly when GrantReward does for the reward's own campaign, whichever
      statements fail, and leave the same rows and counter. */
  lemma AloneIsGrant(row: Row, table: seq<UserReward>, user: int, id: int, lost: nat,
                     answers: bool, counts: bool, inserts: bool, increments: bool)
    ensures
      var s := Rewards.State(row.reward, UsersOf(table, id), lost, [Rewards.Call(user, Rewards.Reading)]);
      var t := FourSteps(s, answers, counts, inserts, increments);
      var claims := Number(table, (u: UserReward) => u.user == user && u.reward == id);
      var grants :=
        && answers && !row.reward.deleted && row.reward.active
        && !(row.reward.totalAvailable.Some? && row.reward.totalClaimed >= row.reward.totalAvailable.value)
        && counts && claims < row.reward.userLimit && inserts;
      if !grants then
        t.reward == row.reward && t.rows == UsersOf(table, id) && t.lost == lost && t.calls[0].pc.Over?
      else
        && t.rows == UsersOf(table + [UserReward(user, id, row.campaign, None)], id) && t.calls[0].pc.Over?
        && t.reward == (if increments then row.reward.(totalClaimed := row.reward.totalClaimed + 1) else row.reward)
        && t.lost == (if increments then lost else lost + 1)
  {
    hide Number;
    var granted := UserReward(user, id, row.campaign, None);
    assert (table + [granted])[..|table|] == table;
    RowsAreNumber(table, user, id);
    var s := Rewards.State(row.reward, UsersOf(table, id), lost, [Rewards.Call(user, Rewards.Reading)]);
    var s1 := Rewards.ActOn(s, 0, !answers);
    if s1.calls[0].pc.Over? {
      assert FourSteps(s, answers, counts, inserts, increments) == s1;
    } else {
      var s2 := Rewards.ActOn(s1, 0, !counts);
      if s2.calls[0].pc.Over? {
        assert FourSteps(s, answers, counts, inserts, increments) == s2;
      }
    }
  }
}
