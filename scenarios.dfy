/** Sequences of requests against a fresh store, stating what the handlers
    of index.js promise across several calls: posts to one category
    accumulate, a deleted record starts over, a repeated budget is reported
    as unchanged, a user deletion answers 404 although it deletes, a member
    joins once and logs in afterwards, and member posts add up in `spents`. */
module Scenarios {
  import opened Schema
  import opened Crypt
  import opened Ledger
  import opened StoreState
  import opened Handlers

  /** Two posts by one user to one category end in one record whose amount
      is their sum and whose history lists both, oldest first. */
  method PostsAccumulate(name: string, email: string, password: string, category: string,
                         a1: int, a2: int, t1: int, t2: int)
    returns (s1: Status, s2: Status, amount: int, history: seq<HistoryEntry>)
    requires Present(name) && Present(email) && Present(category) && a1 >= 0 && a2 >= 0
    ensures s1 == Created && s2 == Ok
    ensures amount == a1 + a2
    ensures history == [HistoryEntry(a1, t1), HistoryEntry(a2, t2)]
  {
    var st := new Store();
    var _, uid := st.Signup(name, email, password);
    var d1, d2;
    s1, d1 := st.PostUserData(uid, category, a1, 0, t1);
    assert st.data[d1].user == uid && st.data[d1].category == category;
    s2, d2 := st.PostUserData(uid, category, a2, 0, t2);
    amount, history := st.data[d2].amount, st.data[d2].history;
  }

  /** A negative post to an existing category is refused and leaves the
      record as it was. */
  method NegativePostRefused(name: string, email: string, password: string, category: string,
                             a1: int, a2: int, t1: int, t2: int)
    returns (s: Status, amount: int, history: seq<HistoryEntry>)
    requires Present(name) && Present(email) && Present(category) && a1 >= 0 && a2 < 0
    ensures s == Invalid && amount == a1 && history == [HistoryEntry(a1, t1)]
  {
    var st := new Store();
    var _, uid := st.Signup(name, email, password);
    var _, d1 := st.PostUserData(uid, category, a1, 0, t1);
    assert st.data[d1].user == uid && st.data[d1].category == category;
    var d2;
    s, d2 := st.PostUserData(uid, category, a2, 0, t2);
    amount, history := st.data[d1].amount, st.data[d1].history;
  }

  /** After its record is deleted, a category starts again from the next
      post alone, under a new id that is the only one the user lists. */
  method DeleteThenRepost(name: string, email: string, password: string, category: string,
                          a1: int, a2: int, t1: int, t2: int)
    returns (s1: Status, deleted: Status, s: Status, first: nat, id: nat,
             amount: int, history: seq<HistoryEntry>, listed: seq<nat>)
    requires Present(name) && Present(email) && Present(category) && a1 >= 0 && a2 >= 0
    ensures s1 == Created && deleted == Ok && s == Created && id != first
    ensures amount == a2 && history == [HistoryEntry(a2, t2)] && listed == [id]
  {
    var st := new Store();
    var _, uid := st.Signup(name, email, password);
    s1, first := st.PostUserData(uid, category, a1, 0, t1);
    assert st.data[first].user == uid && st.data[first].category == category;
    deleted := st.DeleteUserData(uid, first);
    s, id := st.PostUserData(uid, category, a2, 0, t2);
    amount, history, listed := st.data[id].amount, st.data[id].history, st.users[uid].data;
  }

  /** A new user's budget is the default; setting it reports the direction
      of the change from the default, and setting the same value again
      reports it unchanged. */
  method BudgetTwice(name: string, email: string, password: string, b: int)
    returns (s1: Status, s2: Status, r1: BudgetReport, r2: BudgetReport, stored: int)
    requires Present(name) && Present(email) && b >= 0
    ensures s1 == Ok && s2 == Ok
    ensures r1 == BudgetReport(Classify(DefaultBudget, b), b, DefaultBudget)
    ensures r2 == BudgetReport(Unchanged, b, b)
    ensures stored == b
  {
    var st := new Store();
    var _, uid := st.Signup(name, email, password);
    s1, r1 := st.UpdateBudget(uid, b);
    s2, r2 := st.UpdateBudget(uid, b);
    stored := st.users[uid].budget;
  }

  /** A second signup with a taken email is refused. */
  method EmailTaken(name: string, email: string, password: string, name2: string, password2: string)
    returns (s1: Status, s2: Status, accounts: nat)
    requires Present(name) && Present(email)
    ensures s1 == Created && s2 == Conflict && accounts == 1
  {
    var st := new Store();
    var id1, id2;
    s1, id1 := st.Signup(name, email, password);
    s2, id2 := st.Signup(name2, email, password2);
    accounts := |st.users|;
  }

  /** Deleting a user removes the user and every record of the user, yet
      the answer is 404. */
  method DeleteUserAnswersNotFound(name: string, email: string, password: string, category: string,
                                   a: int, t: int)
    returns (existed: bool, s: Status, userLeft: bool, recordsLeft: bool)
    requires Present(name) && Present(email) && Present(category) && a >= 0
    ensures existed && s == NotFound && !userLeft && !recordsLeft
  {
    var st := new Store();
    var _, uid := st.Signup(name, email, password);
    var _, d := st.PostUserData(uid, category, a, 0, t);
    assert st.data[d].user == uid && st.data[d].category == category;
    existed := uid in st.users && HasData(st.data, uid, category);
    s := st.DeleteUser(uid);
    userLeft, recordsLeft := uid in st.users, HasData(st.data, uid, category);
  }

  /** A first join creates the member with `spents` 0; joining again with
      the same name and password finds that member; a member password that
      differs from the right one in the part bcrypt reads is refused. */
  method JoinTwice(groupName: string, groupPassword: string, memberName: string,
                   memberPassword: string, wrongPassword: string)
    returns (s1: Status, s2: Status, s3: Status, m1: nat, m2: nat, spents: int)
    requires Present(groupName) && Present(memberName)
    requires Significant(wrongPassword) != Significant(memberPassword)
    ensures s1 == Created && s2 == Ok && s3 == Unauthorized
    ensures m1 == m2 && spents == 0
  {
    var st := new Store();
    var _, gid := st.CreateGroup(groupName, groupPassword);
    assert st.groups[gid].groupName == groupName;
    var g1, g2, g3, m3, sp1, sp3;
    s1, g1, m1, sp1 := st.JoinGroup(groupName, groupPassword, memberName, memberPassword);
    assert st.members[m1].groupId == g1 && st.members[m1].members == memberName;
    s2, g2, m2, spents := st.JoinGroup(groupName, groupPassword, memberName, memberPassword);
    assert GroupNameUnique(st.groups, g1, g2);
    MatchesIff(wrongPassword, memberPassword);
    s3, g3, m3, sp3 := st.JoinGroup(groupName, groupPassword, memberName, wrongPassword);
  }

  /** A member's posts add up both in `spents` and in the record of the
      category, negative amounts included; deleting the record leaves
      `spents` as it was. */
  method MemberPostsAccumulate(groupName: string, groupPassword: string, memberName: string,
                               memberPassword: string, category: string, a1: int, a2: int)
    returns (s1: Status, s2: Status, s3: Status, amount: int, spentsAfter: int)
    requires Present(groupName) && Present(memberName) && Present(category)
    ensures s1 == Ok && s2 == Ok && s3 == Ok
    ensures amount == a1 + a2
    ensures spentsAfter == a1 + a2
  {
    var st := new Store();
    var _, gid := st.CreateGroup(groupName, groupPassword);
    assert st.groups[gid].groupName == groupName;
    var _, _, mid, _ := st.JoinGroup(groupName, groupPassword, memberName, memberPassword);
    var k1, k2;
    s1, k1 := st.PostMemberData(gid, mid, category, a1);
    assert st.memberData[k1] == GroupMemberData(mid, gid, category, a1);
    s2, k2 := st.PostMemberData(gid, mid, category, a2);
    amount := st.memberData[k2].amount;
    s3 := st.DeleteMemberData(gid, mid, k2);
    spentsAfter := st.members[mid].spents;
  }
}
