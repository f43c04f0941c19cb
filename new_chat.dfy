/**
 * The new-chat screen's friend list (src/screens/inbox/NewChatScreen.js):
 * friends, already in alphabetical order, are sectioned under the capital of
 * their name's first letter (`'#'` when it is not a letter), and the search
 * box filters friends whose name or username contains the query, ignoring case.
 */
module NewChatScreen {
  import opened Wrappers
  import opened Text
  import opened Sequences

  type UserId = string

  datatype Friend = Friend(userID: UserId, name: string, username: string)

  datatype FriendSection = FriendSection(title: string, data: seq<UserId>)

  /** The section a name goes under: its first character upper-cased if it is an ASCII letter, else `'#'`. */
  function SectionTitle(name: string): (title: string)
    ensures |name| > 0 && IsAsciiLetter(name[0]) ==> title == [UpperChar(name[0])] && 'A' <= title[0] <= 'Z'
    ensures !(|name| > 0 && IsAsciiLetter(name[0])) ==> title == "#"
  {
    if |name| > 0 && IsAsciiLetter(name[0]) then [UpperChar(name[0])] else "#"
  }

  /** Two names share a section iff both start with the same letter up to case, or neither starts with a letter. */
  lemma SameSectionIff(a: string, b: string)
    ensures SectionTitle(a) == SectionTitle(b) <==>
      if |a| > 0 && IsAsciiLetter(a[0]) then |b| > 0 && IsAsciiLetter(b[0]) && LowerChar(a[0]) == LowerChar(b[0])
      else !(|b| > 0 && IsAsciiLetter(b[0]))
  {
    if |a| > 0 && IsAsciiLetter(a[0]) && |b| > 0 && IsAsciiLetter(b[0]) {
      if LowerChar(a[0]) == LowerChar(b[0]) {
        UpperOfLower(a[0]);
        UpperOfLower(b[0]);
      } else {
        assert UpperChar(a[0]) != UpperChar(b[0]) by {
          if UpperChar(a[0]) == UpperChar(b[0]) {
            LowerOfUpper(a[0]);
            LowerOfUpper(b[0]);
          }
        }
        assert SectionTitle(a)[0] != SectionTitle(b)[0];
      }
    }
  }

  lemma UpperOfLower(c: char)
    requires IsAsciiLetter(c)
    ensures UpperChar(c) == UpperChar(LowerChar(c))
  {
  }

  lemma LowerOfUpper(c: char)
    requires IsAsciiLetter(c)
    ensures LowerChar(UpperChar(c)) == LowerChar(c)
  {
  }

  // ----- the specification of the sectioning -----

  /** `sectionsArray.find(section => section.title === title)`, as an index. */
  function FindTitle(sections: seq<FriendSection>, title: string): (r: Option<nat>)
    ensures r.Some? ==>
      && r.value < |sections| && sections[r.value].title == title
      && forall j :: 0 <= j < r.value ==> sections[j].title != title
    ensures r.None? ==> forall j :: 0 <= j < |sections| ==> sections[j].title != title
  {
    if sections == [] then None
    else if sections[0].title == title then Some(0)
    else match FindTitle(sections[1..], title)
      case None => None
      case Some(k) => Some(k + 1)
  }

  /** One step of the `forEach`. */
  function AddFriend(sections: seq<FriendSection>, friend: Friend): seq<FriendSection> {
    var title := SectionTitle(friend.name);
    match FindTitle(sections, title)
    case Some(k) => sections[k := FriendSection(title, sections[k].data + [friend.userID])]
    case None => sections + [FriendSection(title, [friend.userID])]
  }

  /** The sections built from `friendData`. */
  function Sectioned(friendData: seq<Friend>): seq<FriendSection> {
    if friendData == [] then [] else AddFriend(Sectioned(friendData[..|friendData| - 1]), friendData[|friendData| - 1])
  }

  // ----- the code -----

  /** `sectionsArray.find(...)`: the first section with the title. */
  method FindSection(sectionsArray: seq<FriendSection>, title: string) returns (found: Option<nat>)
    ensures found == FindTitle(sectionsArray, title)
  {
    var i := 0;
    while i < |sectionsArray|
      invariant 0 <= i <= |sectionsArray|
      invariant forall j :: 0 <= j < i ==> sectionsArray[j].title != title
    {
      if sectionsArray[i].title == title {
        FindTitleFirst(sectionsArray, title, i);
        return Some(i);
      }
      i := i + 1;
    }
    FindTitleAbsent(sectionsArray, title);
    return None;
  }

  /** `setupFriendSections(friendData)` */
  method SetupFriendSections(friendData: seq<Friend>) returns (sectionsArray: seq<FriendSection>)
    ensures sectionsArray == Sectioned(friendData)
  {
    sectionsArray := [];
    for i := 0 to |friendData|
      invariant sectionsArray == Sectioned(friendData[..i])
    {
      var friend := friendData[i];
      assert friendData[..i + 1][..i] == friendData[..i] && friendData[..i + 1][i] == friend;
      assert Sectioned(friendData[..i + 1]) == AddFriend(sectionsArray, friend);
      var firstCharacter := SectionTitle(friend.name);
      var section := FindSection(sectionsArray, firstCharacter);
      if section.Some? {
        var k := section.value;
        sectionsArray := sectionsArray[k := FriendSection(firstCharacter, sectionsArray[k].data + [friend.userID])];
      } else {
        sectionsArray := sectionsArray + [FriendSection(firstCharacter, [friend.userID])];
      }
    }
    assert friendData[..|friendData|] == friendData;
  }

  lemma FindTitleFirst(sections: seq<FriendSection>, title: string, i: nat)
    requires i < |sections| && sections[i].title == title
    requires forall j :: 0 <= j < i ==> sections[j].title != title
    ensures FindTitle(sections, title) == Some(i)
  {
  }

  lemma FindTitleAbsent(sections: seq<FriendSection>, title: string)
    requires forall j :: 0 <= j < |sections| ==> sections[j].title != title
    ensures FindTitle(sections, title) == None
  {
  }

  // ----- properties -----

  function Titles(sections: seq<FriendSection>): (ts: seq<string>)
    ensures |ts| == |sections| && forall i :: 0 <= i < |sections| ==> ts[i] == sections[i].title
  {
    if sections == [] then [] else [sections[0].title] + Titles(sections[1..])
  }

  function NameTitles(friendData: seq<Friend>): seq<string> {
    if friendData == [] then [] else NameTitles(friendData[..|friendData| - 1]) + [SectionTitle(friendData[|friendData| - 1].name)]
  }

  /** The ids of the friends filed under `title`, in input order. */
  function IdsUnder(friendData: seq<Friend>, title: string): seq<UserId> {
    if friendData == [] then []
    else
      var last := friendData[|friendData| - 1];
      IdsUnder(friendData[..|friendData| - 1], title) + (if SectionTitle(last.name) == title then [last.userID] else [])
  }

  /** The number of entries across all sections. */
  function Entries(sections: seq<FriendSection>): nat {
    if sections == [] then 0 else |sections[0].data| + Entries(sections[1..])
  }

  ghost predicate SectionsShaped(friendData: seq<Friend>, sections: seq<FriendSection>) {
    && Titles(sections) == Dedup(NameTitles(friendData))
    && (forall i :: 0 <= i < |sections| ==> sections[i].data == IdsUnder(friendData, sections[i].title))
    && Entries(sections) == |friendData|
  }

  lemma {:induction false} EntriesUpdate(sections: seq<FriendSection>, k: nat, s: FriendSection)
    requires k < |sections|
    ensures Entries(sections[k := s]) + |sections[k].data| == Entries(sections) + |s.data|
  {
    if k > 0 {
      assert sections[k := s][1..] == sections[1..][k - 1 := s];
      EntriesUpdate(sections[1..], k - 1, s);
    }
  }

  lemma {:induction false} EntriesAppend(sections: seq<FriendSection>, s: FriendSection)
    ensures Entries(sections + [s]) == Entries(sections) + |s.data|
  {
    if sections == [] {
      assert [s][1..] == [];
    } else {
      assert (sections + [s])[1..] == sections[1..] + [s];
      EntriesAppend(sections[1..], s);
    }
  }

  lemma {:induction false} IdsUnderAbsent(friendData: seq<Friend>, title: string)
    requires title !in NameTitles(friendData)
    ensures IdsUnder(friendData, title) == []
  {
    if friendData != [] {
      IdsUnderAbsent(friendData[..|friendData| - 1], title);
    }
  }

  lemma TitlesUpdate(sections: seq<FriendSection>, k: nat, s: FriendSection)
    requires k < |sections| && s.title == sections[k].title
    ensures Titles(sections[k := s]) == Titles(sections)
  {
  }

  lemma TitlesAppend(sections: seq<FriendSection>, s: FriendSection)
    ensures Titles(sections + [s]) == Titles(sections) + [s.title]
  {
  }

  /** One step of the `forEach` keeps the sections in shape. */
  lemma AddFriendShaped(init: seq<Friend>, friend: Friend, sections: seq<FriendSection>)
    requires SectionsShaped(init, sections)
    ensures SectionsShaped(init + [friend], AddFriend(sections, friend))
  {
    var fs := init + [friend];
    assert fs[..|fs| - 1] == init;
    var title := SectionTitle(friend.name);
    DedupSpec(NameTitles(init));
    assert NameTitles(fs) == NameTitles(init) + [title];
    match FindTitle(sections, title)
    case Some(k) => {
      var s := FriendSection(title, sections[k].data + [friend.userID]);
      TitlesUpdate(sections, k, s);
      EntriesUpdate(sections, k, s);
      assert title in Titles(sections);
    }
    case None => {
      var s := FriendSection(title, [friend.userID]);
      TitlesAppend(sections, s);
      EntriesAppend(sections, s);
      assert title !in Titles(sections);
      IdsUnderAbsent(init, title);
    }
  }

  lemma {:induction false} SectionedShaped(friendData: seq<Friend>)
    ensures SectionsShaped(friendData, Sectioned(friendData))
  {
    if friendData != [] {
      var init := friendData[..|friendData| - 1];
      assert friendData == init + [friendData[|friendData| - 1]];
      SectionedShaped(init);
      AddFriendShaped(init, friendData[|friendData| - 1], Sectioned(init));
    }
  }

  /**
   * The sections are titled by the distinct titles of the names in order of
   * first appearance, no title twice; each holds, in input order, the ids of
   * exactly the friends filed under its title; and the entries add up to the
   * number of friends.
   */
  lemma FriendSectionsSpec(friendData: seq<Friend>)
    ensures var s := Sectioned(friendData);
      && Titles(s) == Dedup(NameTitles(friendData))
      && Distinct(Titles(s))
      && (forall i :: 0 <= i < |s| ==> s[i].data == IdsUnder(friendData, s[i].title))
      && Entries(s) == |friendData|
  {
    SectionedShaped(friendData);
    DedupSpec(NameTitles(friendData));
  }

  // ----- search -----

  /** The filter test: the lower-cased name or username contains the lower-cased query. */
  predicate Matches(friend: Friend, search: string) {
    Contains(ToLower(friend.name), ToLower(search)) || Contains(ToLower(friend.username), ToLower(search))
  }

  /** `b` can be obtained from `a` by deleting elements. */
  predicate IsSubsequence<T(==)>(b: seq<T>, a: seq<T>)
    decreases |a|
  {
    if b == [] then true
    else if a == [] then false
    else if a[0] == b[0] then IsSubsequence(b[1..], a[1..])
    else IsSubsequence(b, a[1..])
  }

  function UserIds(friends: seq<Friend>): (ids: seq<UserId>)
    ensures |ids| == |friends| && forall i :: 0 <= i < |friends| ==> ids[i] == friends[i].userID
  {
    if friends == [] then [] else [friends[0].userID] + UserIds(friends[1..])
  }

  /** `executeSearch()`: the ids of the matching friends, in list order. */
  function ExecuteSearch(friends: seq<Friend>, search: string): (results: seq<UserId>)
    ensures forall id :: id in results <==> exists i :: 0 <= i < |friends| && friends[i].userID == id && Matches(friends[i], search)
    ensures IsSubsequence(results, UserIds(friends))
  {
    if friends == [] then []
    else
      var rest := ExecuteSearch(friends[1..], search);
      assert UserIds(friends)[1..] == UserIds(friends[1..]);
      assert forall i :: 0 < i < |friends| ==> friends[1..][i - 1] == friends[i];
      if Matches(friends[0], search) then [friends[0].userID] + rest
      else
        SubsequenceSkip(rest, UserIds(friends));
        rest
  }

  /**
   * With distinct document ids (one document per friend), the results hold
   * each matching friend's id once, in the order of the friend list.
   */
  lemma {:induction false} ExecuteSearchOrdered(friends: seq<Friend>, search: string)
    requires Distinct(UserIds(friends))
    ensures Distinct(ExecuteSearch(friends, search))
    ensures forall i, j :: 0 <= i < j < |friends| && Matches(friends[i], search) && Matches(friends[j], search) ==>
      && friends[i].userID in ExecuteSearch(friends, search) && friends[j].userID in ExecuteSearch(friends, search)
      && FirstIndex(ExecuteSearch(friends, search), friends[i].userID) < FirstIndex(ExecuteSearch(friends, search), friends[j].userID)
  {
    if friends != [] {
      var rest := friends[1..];
      var r, r' := ExecuteSearch(friends, search), ExecuteSearch(rest, search);
      var h := friends[0].userID;
      assert UserIds(friends)[1..] == UserIds(rest);
      DistinctTail(UserIds(friends));
      ExecuteSearchOrdered(rest, search);
      assert forall k :: 0 <= k < |rest| ==> rest[k] == friends[k + 1];
      assert h !in r';
      forall i, j | 0 <= i < j < |friends| && Matches(friends[i], search) && Matches(friends[j], search)
        ensures friends[i].userID in r && friends[j].userID in r
        ensures FirstIndex(r, friends[i].userID) < FirstIndex(r, friends[j].userID)
      {
        var x, y := friends[i].userID, friends[j].userID;
        assert y in r' by { assert rest[j - 1] == friends[j]; }
        assert y != h by { assert UserIds(friends)[j] == y && UserIds(friends)[0] == h; }
        if i == 0 {
          assert r == [h] + r';
        } else {
          assert x in r' by { assert rest[i - 1] == friends[i]; }
          assert x != h by { assert UserIds(friends)[i] == x && UserIds(friends)[0] == h; }
          assert FirstIndex(r', x) < FirstIndex(r', y) by { assert rest[i - 1] == friends[i] && rest[j - 1] == friends[j]; }
          if Matches(friends[0], search) {
            assert r == [h] + r';
            assert r[1..] == r';
          }
        }
      }
      if Matches(friends[0], search) {
        assert r == [h] + r';
        forall a, b | 0 <= a < b < |r| ensures r[a] != r[b] {
          if a > 0 { assert r[a] == r'[a - 1]; }
          assert r[b] == r'[b - 1];
        }
      }
    }
  }

  lemma SubsequenceSkip<T>(b: seq<T>, a: seq<T>)
    requires a != [] && IsSubsequence(b, a[1..])
    ensures IsSubsequence(b, a)
    decreases |a|, |b|
  {
    if b != [] && a[0] == b[0] {
      SubsequenceDrop(b, a[1..]);
    }
  }

  /** Dropping the head of a subsequence keeps it a subsequence. */
  lemma {:induction false} SubsequenceDrop<T>(b: seq<T>, a: seq<T>)
    requires b != [] && IsSubsequence(b, a)
    ensures IsSubsequence(b[1..], a)
    decreases |a|, |b|
  {
    if a != [] {
      if a[0] == b[0] {
        if b[1..] != [] {
          SubsequenceSkip(b[1..], a);
        }
      } else {
        SubsequenceDrop(b, a[1..]);
        if b[1..] != [] {
          SubsequenceSkip(b[1..], a);
        }
      }
    }
  }

  /** The `[search]` effect: a non-empty query runs the search, an empty one resets the results. */
  function OnSearchChange(friends: seq<Friend>, search: string): (results: seq<UserId>)
    ensures search == [] ==> results == []
    ensures search != [] ==> results == ExecuteSearch(friends, search)
  {
    if |search| > 0 then ExecuteSearch(friends, search) else []
  }
}
