/**
 * The "friends who finished the challenge" strip of the challenge screen
 * (src/screens/challenge/ChallengeScreen.js): a prompt for no friends, one
 * avatar for one, and otherwise an overlapping row of avatars with a `+n` badge
 * past five. The count is a parameter.
 */
module ChallengeScreen {
  import opened Wrappers

  datatype Completion =
    | BeFirst
    | Single
    | Row(imageRowWidth: nat, avatars: nat, badge: Option<nat>)

  /** `numExtra`: set only for five or more, capped at 99. */
  function NumExtra(friendCount: nat): (extra: Option<nat>)
    ensures friendCount < 5 <==> extra.None?
    ensures extra.Some? ==> extra.value == if friendCount - 4 > 99 then 99 else friendCount - 4
  {
    if friendCount >= 5 then
      var numExtra := friendCount - 4;
      Some(if numExtra > 99 then 99 else numExtra)
    else None
  }

  /** `FriendsCompletion()` */
  function FriendsCompletion(friendCount: nat): Completion {
    if friendCount == 0 then BeFirst
    else if friendCount == 1 then Single
    else
      var imageRowWidth :=
        if friendCount == 3 then 80
        else if friendCount == 4 then 100
        else if friendCount >= 5 then 120
        else 60;
      var avatars := 2 + (if friendCount >= 3 then 1 else 0) + (if friendCount >= 4 then 1 else 0)
                       + (if friendCount == 5 then 1 else 0);
      Row(imageRowWidth, avatars, if friendCount > 5 then NumExtra(friendCount) else None)
  }

  function Min(a: nat, b: nat): nat {
    if a < b then a else b
  }

  /**
   * No friends shows the prompt, one shows one avatar; from two on, the row
   * is 60, 80, 100 or 120 wide and has `min(count, 5)` slots: one per friend
   * up to five, else four avatars and a badge. The badge counts the friends
   * not shown, up to 99.
   */
  lemma FriendsCompletionSpec(friendCount: nat)
    ensures friendCount == 0 <==> FriendsCompletion(friendCount) == BeFirst
    ensures friendCount == 1 <==> FriendsCompletion(friendCount) == Single
    ensures friendCount >= 2 ==> var c := FriendsCompletion(friendCount);
      && c.Row?
      && c.imageRowWidth == (if friendCount >= 5 then 120 else 20 * friendCount + 20)
      && c.avatars + (if c.badge.Some? then 1 else 0) == Min(friendCount, 5)
      && (c.badge.Some? <==> friendCount > 5)
      && (c.badge.Some? ==> c.avatars == 4 && c.badge.value == Min(friendCount - 4, 99))
      && (friendCount <= 5 ==> c.avatars == friendCount)
      && (6 <= friendCount <= 103 ==> c.avatars + c.badge.value == friendCount)
  {
  }
}
