/** The collections of the store as maps from ids to records, the `findOne`
    queries the handlers issue against them, the invariants every handler
    keeps, and one lemma per kind of write saying that the write keeps them. */
module StoreState {
  import opened Schema
  import opened Ledger

  // ---------------------------------------------------------------------
  // Queries standing for the `findOne` filters of the handlers

  /** User.findOne({ email }) finds a document. */
  predicate HasEmail(users: map<nat, User>, email: string)
  {
    exists u :: u in users && users[u].email == email
  }

  /** Data.findOne({ user, category }) finds a document. */
  predicate HasData(data: map<nat, Data>, user: nat, category: string)
  {
    exists d :: d in data && data[d].user == user && data[d].category == category
  }

  /** Group.findOne({ groupName }) finds a document. */
  predicate HasGroupNamed(groups: map<nat, Group>, groupName: string)
  {
    exists g :: g in groups && groups[g].groupName == groupName
  }

  /** GroupMembers.findOne({ members: name, groupId }) finds a document. */
  predicate HasMember(members: map<nat, GroupMember>, groupId: nat, name: string)
  {
    exists m :: m in members && members[m].groupId == groupId && members[m].members == name
  }

  /** GroupMembersData.findOne({ groupMember, groupId, category }) finds a document. */
  predicate HasMemberData(memberData: map<nat, GroupMemberData>, memberId: nat, groupId: nat, category: string)
  {
    exists k :: k in memberData && memberData[k].groupMember == memberId
             && memberData[k].groupId == groupId && memberData[k].category == category
  }

  /** Data.deleteMany({ user: owner }): the collection without the owner's records. */
  function DropOwner(data: map<nat, Data>, owner: nat): (r: map<nat, Data>)
    ensures forall d :: d in r <==> d in data && data[d].user != owner
    ensures forall d :: d in r ==> r[d] == data[d]
  {
    map d | d in data && data[d].user != owner :: data[d]
  }

  // ---------------------------------------------------------------------
  // Invariants. Each one is a `forall` over a per-record predicate, so that
  // it is applied to a record only where a proof names that record.

  /** Every id in use is below the next fresh id. */
  ghost predicate Below<T>(m: map<nat, T>, next: nat)
  {
    forall id :: id in m ==> id < next
  }

  ghost predicate UserOk(users: map<nat, User>, u: nat)
  {
    u in users ==> ValidUser(users[u])
  }

  ghost predicate EmailUnique(users: map<nat, User>, u: nat, v: nat)
  {
    u in users && v in users && users[u].email == users[v].email ==> u == v
  }

  /** Every user passes its schema and no two users share an email. */
  ghost predicate UsersValid(users: map<nat, User>)
  {
    && (forall u :: UserOk(users, u))
    && (forall u, v :: EmailUnique(users, u, v))
  }

  ghost predicate DataOk(users: map<nat, User>, data: map<nat, Data>, d: nat)
  {
    d in data ==> ValidData(data[d]) && Balanced(data[d]) && data[d].user in users
  }

  ghost predicate DataKeyUnique(data: map<nat, Data>, d: nat, e: nat)
  {
    d in data && e in data && data[d].user == data[e].user && data[d].category == data[e].category ==> d == e
  }

  /** The user's `data` list holds exactly the ids of the user's records, once each. */
  ghost predicate ListOk(users: map<nat, User>, data: map<nat, Data>, u: nat)
  {
    u in users ==>
      && NoDup(users[u].data)
      && forall d :: d in users[u].data <==> d in data && data[d].user == u
  }

  /** Every Data record passes its schema, agrees with its history and has an
      existing owner; at most one record exists per (user, category); and each
      user's `data` list is in step with the records. */
  ghost predicate DataValid(users: map<nat, User>, data: map<nat, Data>)
  {
    && (forall d :: DataOk(users, data, d))
    && (forall d, e :: DataKeyUnique(data, d, e))
    && (forall u :: ListOk(users, data, u))
  }

  /** The group passes its schema and its `groupMembers` list holds exactly
      its members, once each. */
  ghost predicate GroupOk(groups: map<nat, Group>, members: map<nat, GroupMember>, g: nat)
  {
    g in groups ==>
      && ValidGroup(groups[g])
      && NoDup(groups[g].groupMembers)
      && forall m :: m in groups[g].groupMembers <==> m in members && members[m].groupId == g
  }

  ghost predicate GroupNameUnique(groups: map<nat, Group>, g: nat, h: nat)
  {
    g in groups && h in groups && groups[g].groupName == groups[h].groupName ==> g == h
  }

  /** The member passes its schema, belongs to an existing group, and its
      `membersData` list, which no handler writes, is empty. */
  ghost predicate MemberOk(groups: map<nat, Group>, members: map<nat, GroupMember>, m: nat)
  {
    m in members ==>
      ValidMember(members[m]) && members[m].groupId in groups && members[m].membersData == []
  }

  ghost predicate MemberKeyUnique(members: map<nat, GroupMember>, m: nat, n: nat)
  {
    (m in members && n in members && members[m].groupId == members[n].groupId
     && members[m].members == members[n].members) ==> m == n
  }

  /** Group names are unique, display names are unique within a group, and
      groups and members are in step. */
  ghost predicate GroupsValid(groups: map<nat, Group>, members: map<nat, GroupMember>)
  {
    && (forall g :: GroupOk(groups, members, g))
    && (forall g, h :: GroupNameUnique(groups, g, h))
    && (forall m :: MemberOk(groups, members, m))
    && (forall m, n :: MemberKeyUnique(members, m, n))
  }

  /** The record passes its schema and belongs to an existing member of the
      group it names. */
  ghost predicate MemberDataOk(members: map<nat, GroupMember>, memberData: map<nat, GroupMemberData>, k: nat)
  {
    k in memberData ==>
      && ValidMemberData(memberData[k])
      && memberData[k].groupMember in members
      && members[memberData[k].groupMember].groupId == memberData[k].groupId
  }

  ghost predicate MemberDataKeyUnique(memberData: map<nat, GroupMemberData>, k: nat, l: nat)
  {
    (k in memberData && l in memberData
     && memberData[k].groupMember == memberData[l].groupMember
     && memberData[k].groupId == memberData[l].groupId
     && memberData[k].category == memberData[l].category) ==> k == l
  }

  /** At most one member-data record per (member, group, category). */
  ghost predicate MemberDataValid(members: map<nat, GroupMember>, memberData: map<nat, GroupMemberData>)
  {
    && (forall k :: MemberDataOk(members, memberData, k))
    && (forall k, l :: MemberDataKeyUnique(memberData, k, l))
  }

  // ---------------------------------------------------------------------
  // The invariants read record by record

  /** Every stored Data record has an existing owner and a present category,
      its amount and history amounts are non-negative, and its amount is the
      sum of its history. */
  lemma StoredDataSound(users: map<nat, User>, data: map<nat, Data>)
    requires DataValid(users, data)
    ensures forall d :: d in data ==>
              && data[d].user in users && Present(data[d].category)
              && data[d].amount == Total(data[d].history) && data[d].amount >= 0
              && forall i :: 0 <= i < |data[d].history| ==> data[d].history[i].amount >= 0
  {
    forall d | d in data
      ensures data[d].user in users && Present(data[d].category)
      ensures data[d].amount == Total(data[d].history) && data[d].amount >= 0
      ensures forall i :: 0 <= i < |data[d].history| ==> data[d].history[i].amount >= 0
    {
      assert DataOk(users, data, d);
    }
  }

  /** No two Data records share a (user, category) pair. */
  lemma OneDataPerKey(users: map<nat, User>, data: map<nat, Data>, d: nat, e: nat)
    requires DataValid(users, data)
    requires d in data && e in data
    requires data[d].user == data[e].user && data[d].category == data[e].category
    ensures d == e
  {
    assert DataKeyUnique(data, d, e);
  }

  /** Each user's `data` list names every record of the user exactly once and
      nothing else. */
  lemma UserListInStep(users: map<nat, User>, data: map<nat, Data>, u: nat)
    requires DataValid(users, data) && u in users
    ensures NoDup(users[u].data)
    ensures forall d :: d in users[u].data <==> d in data && data[d].user == u
  {
    assert ListOk(users, data, u);
  }

  /** No two users share an email. */
  lemma OneUserPerEmail(users: map<nat, User>, u: nat, v: nat)
    requires UsersValid(users)
    requires u in users && v in users && users[u].email == users[v].email
    ensures u == v
  {
    assert EmailUnique(users, u, v);
  }

  /** Each group passes its schema, and its member list names every member
      of the group exactly once. */
  lemma GroupListInStep(groups: map<nat, Group>, members: map<nat, GroupMember>, g: nat)
    requires GroupsValid(groups, members) && g in groups
    ensures Present(groups[g].groupName) && Present(groups[g].groupPassword)
    ensures NoDup(groups[g].groupMembers)
    ensures forall m :: m in groups[g].groupMembers <==> m in members && members[m].groupId == g
  {
    assert GroupOk(groups, members, g);
  }

  /** No two member-data records share a (member, group, category) triple. */
  lemma OneMemberDataPerKey(members: map<nat, GroupMember>, memberData: map<nat, GroupMemberData>, k: nat, l: nat)
    requires MemberDataValid(members, memberData)
    requires k in memberData && l in memberData
    requires memberData[k].groupMember == memberData[l].groupMember
    requires memberData[k].groupId == memberData[l].groupId
    requires memberData[k].category == memberData[l].category
    ensures k == l
  {
    assert MemberDataKeyUnique(memberData, k, l);
  }

  /** Every stored user passes its schema: name, email and password are
      present and the budget is non-negative. */
  lemma StoredUsersValid(users: map<nat, User>, u: nat)
    requires UsersValid(users) && u in users
    ensures Present(users[u].name) && Present(users[u].email) && Present(users[u].password)
    ensures users[u].budget >= 0
  {
    assert UserOk(users, u);
  }

  /** No two groups share a name. */
  lemma OneGroupPerName(groups: map<nat, Group>, members: map<nat, GroupMember>, g: nat, h: nat)
    requires GroupsValid(groups, members)
    requires g in groups && h in groups && groups[g].groupName == groups[h].groupName
    ensures g == h
  {
    assert GroupNameUnique(groups, g, h);
  }

  /** Within one group no two members share a display name. */
  lemma OneMemberPerNameInGroup(groups: map<nat, Group>, members: map<nat, GroupMember>, m: nat, n: nat)
    requires GroupsValid(groups, members)
    requires m in members && n in members
    requires members[m].groupId == members[n].groupId && members[m].members == members[n].members
    ensures m == n
  {
    assert MemberKeyUnique(members, m, n);
  }

  /** Every member passes its schema and belongs to an existing group, and
      its `membersData` list is empty: no handler ever writes it. */
  lemma MembersDataNeverWritten(groups: map<nat, Group>, members: map<nat, GroupMember>, m: nat)
    requires GroupsValid(groups, members) && m in members
    ensures Present(members[m].members) && Present(members[m].password)
    ensures members[m].groupId in groups
    ensures members[m].membersData == []
  {
    assert MemberOk(groups, members, m);
  }

  /** Every member-data record has a category and belongs to an existing
      member of the group it names. */
  lemma StoredMemberDataOwned(members: map<nat, GroupMember>, memberData: map<nat, GroupMemberData>, k: nat)
    requires MemberDataValid(members, memberData) && k in memberData
    ensures Present(memberData[k].category)
    ensures memberData[k].groupMember in members
    ensures members[memberData[k].groupMember].groupId == memberData[k].groupId
  {
    assert MemberDataOk(members, memberData, k);
  }

  // ---------------------------------------------------------------------
  // Each kind of write keeps the invariants

  /** Storing a record under the next fresh id and advancing the counter
      keeps every id in use below it. */
  lemma BelowNext<T>(m: map<nat, T>, next: nat, v: T)
    requires Below(m, next)
    ensures next !in m && Below(m[next := v], next + 1)
  {
  }

  /** Signup: a valid user with a new email, under a new id, with an empty `data` list. */
  lemma AddUserKeepsValid(users: map<nat, User>, data: map<nat, Data>, id: nat, user: User)
    requires UsersValid(users) && DataValid(users, data)
    requires id !in users && ValidUser(user) && user.data == [] && !HasEmail(users, user.email)
    ensures UsersValid(users[id := user]) && DataValid(users[id := user], data)
  {
    var users' := users[id := user];
    forall u ensures UserOk(users', u) {
      assert UserOk(users, u);
    }
    forall u, v ensures EmailUnique(users', u, v) {
      assert EmailUnique(users, u, v);
    }
    forall d ensures DataOk(users', data, d) {
      assert DataOk(users, data, d);
    }
    forall u ensures ListOk(users', data, u) {
      if u == id {
        forall d ensures !(d in data && data[d].user == id) {
          assert DataOk(users, data, d);
        }
      } else {
        assert ListOk(users, data, u);
      }
    }
  }

  /** Delete-user cascade: the user's records and then the user go. */
  lemma DeleteUserKeepsValid(users: map<nat, User>, data: map<nat, Data>, id: nat)
    requires UsersValid(users) && DataValid(users, data)
    ensures UsersValid(users - {id}) && DataValid(users - {id}, DropOwner(data, id))
  {
    var users', data' := users - {id}, DropOwner(data, id);
    forall u ensures UserOk(users', u) {
      assert UserOk(users, u);
    }
    forall u, v ensures EmailUnique(users', u, v) {
      assert EmailUnique(users, u, v);
    }
    forall d ensures DataOk(users', data', d) {
      assert DataOk(users, data, d);
    }
    forall d, e ensures DataKeyUnique(data', d, e) {
      assert DataKeyUnique(data, d, e);
    }
    forall u ensures ListOk(users', data', u) {
      assert ListOk(users, data, u);
    }
  }

  /** A non-negative post to an existing record. */
  lemma DepositKeepsValid(users: map<nat, User>, data: map<nat, Data>, k: nat, amount: int, now: int)
    requires DataValid(users, data) && k in data && amount >= 0
    ensures DataValid(users, data[k := Deposit(data[k], amount, now)])
  {
    var data' := data[k := Deposit(data[k], amount, now)];
    assert DataOk(users, data, k);
    DepositValidIff(data[k], amount, now);
    forall d ensures DataOk(users, data', d) {
      assert DataOk(users, data, d);
    }
    forall d, e ensures DataKeyUnique(data', d, e) {
      assert DataKeyUnique(data, d, e);
    }
    forall u ensures ListOk(users, data', u) {
      assert ListOk(users, data, u);
    }
  }

  /** The first post to a category: the new record under a new id, and that
      id appended to the owner's list. */
  lemma AddDataKeepsValid(users: map<nat, User>, data: map<nat, Data>, userId: nat, id: nat,
                          category: string, amount: int, now: int)
    requires UsersValid(users) && DataValid(users, data)
    requires userId in users && id !in data && !HasData(data, userId, category)
    requires Present(category) && amount >= 0
    ensures var users' := users[userId := users[userId].(data := users[userId].data + [id])];
            UsersValid(users') && DataValid(users', data[id := NewData(userId, category, amount, now)])
  {
    var users' := users[userId := users[userId].(data := users[userId].data + [id])];
    var data' := data[id := NewData(userId, category, amount, now)];
    NewDataValidIff(userId, category, amount, now);
    forall u ensures UserOk(users', u) {
      assert UserOk(users, u);
    }
    forall u, v ensures EmailUnique(users', u, v) {
      assert EmailUnique(users, u, v);
    }
    forall d ensures DataOk(users', data', d) {
      assert DataOk(users, data, d);
    }
    forall d, e ensures DataKeyUnique(data', d, e) {
      assert DataKeyUnique(data, d, e);
    }
    forall u ensures ListOk(users', data', u) {
      assert ListOk(users, data, u);
      if u == userId {
        AppendNoDup(users[u].data, id);
      } else if u in users {
        assert id !in users[u].data;
      }
    }
  }

  /** A budget update to a non-negative value. */
  lemma SetBudgetKeepsValid(users: map<nat, User>, data: map<nat, Data>, userId: nat, budget: int)
    requires UsersValid(users) && DataValid(users, data) && userId in users && budget >= 0
    ensures var users' := users[userId := users[userId].(budget := budget)];
            UsersValid(users') && DataValid(users', data)
  {
    var users' := users[userId := users[userId].(budget := budget)];
    forall u ensures UserOk(users', u) {
      assert UserOk(users, u);
    }
    forall u, v ensures EmailUnique(users', u, v) {
      assert EmailUnique(users, u, v);
    }
    forall d ensures DataOk(users', data, d) {
      assert DataOk(users, data, d);
    }
    forall u ensures ListOk(users', data, u) {
      assert ListOk(users, data, u);
    }
  }

  /** Deleting one of a user's records and filtering its id out of the list. */
  lemma RemoveDataKeepsValid(users: map<nat, User>, data: map<nat, Data>, userId: nat, dataId: nat)
    requires UsersValid(users) && DataValid(users, data)
    requires userId in users && dataId in data && data[dataId].user == userId
    ensures var users' := users[userId := users[userId].(data := Without(users[userId].data, dataId))];
            UsersValid(users') && DataValid(users', data - {dataId})
  {
    var users' := users[userId := users[userId].(data := Without(users[userId].data, dataId))];
    var data' := data - {dataId};
    forall u ensures UserOk(users', u) {
      assert UserOk(users, u);
    }
    forall u, v ensures EmailUnique(users', u, v) {
      assert EmailUnique(users, u, v);
    }
    forall d ensures DataOk(users', data', d) {
      assert DataOk(users, data, d);
    }
    forall d, e ensures DataKeyUnique(data', d, e) {
      assert DataKeyUnique(data, d, e);
    }
    forall u ensures ListOk(users', data', u) {
      assert ListOk(users, data, u);
    }
  }

  /** Create-group: a valid group with a new name, under a new id, with no members. */
  lemma AddGroupKeepsValid(groups: map<nat, Group>, members: map<nat, GroupMember>, id: nat, group: Group)
    requires GroupsValid(groups, members)
    requires id !in groups && ValidGroup(group) && group.groupMembers == [] && !HasGroupNamed(groups, group.groupName)
    ensures GroupsValid(groups[id := group], members)
  {
    var groups' := groups[id := group];
    forall g ensures GroupOk(groups', members, g) {
      if g == id {
        forall m ensures !(m in members && members[m].groupId == id) {
          assert MemberOk(groups, members, m);
        }
      } else {
        assert GroupOk(groups, members, g);
      }
    }
    forall g, h ensures GroupNameUnique(groups', g, h) {
      assert GroupNameUnique(groups, g, h);
    }
    forall m ensures MemberOk(groups', members, m) {
      assert MemberOk(groups, members, m);
    }
  }

  /** Join-group creating a member: the member under a new id, and that id
      appended to its group's list. */
  lemma AddMemberKeepsValid(groups: map<nat, Group>, members: map<nat, GroupMember>,
                            memberData: map<nat, GroupMemberData>, id: nat, member: GroupMember)
    requires GroupsValid(groups, members) && MemberDataValid(members, memberData)
    requires id !in members && member.groupId in groups && ValidMember(member) && member.membersData == []
    requires !HasMember(members, member.groupId, member.members)
    ensures var gid := member.groupId;
            var groups' := groups[gid := groups[gid].(groupMembers := groups[gid].groupMembers + [id])];
            GroupsValid(groups', members[id := member]) && MemberDataValid(members[id := member], memberData)
  {
    var gid := member.groupId;
    var groups' := groups[gid := groups[gid].(groupMembers := groups[gid].groupMembers + [id])];
    var members' := members[id := member];
    forall g ensures GroupOk(groups', members', g) {
      assert GroupOk(groups, members, g);
      if g == gid {
        AppendNoDup(groups[g].groupMembers, id);
      } else if g in groups {
        assert id !in groups[g].groupMembers;
      }
    }
    forall g, h ensures GroupNameUnique(groups', g, h) {
      assert GroupNameUnique(groups, g, h);
    }
    forall m ensures MemberOk(groups', members', m) {
      assert MemberOk(groups, members, m);
    }
    forall m, n ensures MemberKeyUnique(members', m, n) {
      assert MemberKeyUnique(members, m, n);
    }
    forall k ensures MemberDataOk(members', memberData, k) {
      assert MemberDataOk(members, memberData, k);
    }
  }

  /** A member's `spents` changes and nothing else about it. */
  lemma ChargeMemberKeepsValid(groups: map<nat, Group>, members: map<nat, GroupMember>,
                               memberData: map<nat, GroupMemberData>, memberId: nat, spents: int)
    requires GroupsValid(groups, members) && MemberDataValid(members, memberData) && memberId in members
    ensures var members' := members[memberId := members[memberId].(spents := spents)];
            GroupsValid(groups, members') && MemberDataValid(members', memberData)
  {
    var members' := members[memberId := members[memberId].(spents := spents)];
    forall g ensures GroupOk(groups, members', g) {
      assert GroupOk(groups, members, g);
    }
    forall m ensures MemberOk(groups, members', m) {
      assert MemberOk(groups, members, m);
    }
    forall m, n ensures MemberKeyUnique(members', m, n) {
      assert MemberKeyUnique(members, m, n);
    }
    forall k ensures MemberDataOk(members', memberData, k) {
      assert MemberDataOk(members, memberData, k);
    }
  }

  /** A post to an existing member-data record changes only its amount. */
  lemma SetMemberAmountKeepsValid(members: map<nat, GroupMember>, memberData: map<nat, GroupMemberData>,
                                  k: nat, amount: int)
    requires MemberDataValid(members, memberData) && k in memberData
    ensures MemberDataValid(members, memberData[k := memberData[k].(amount := amount)])
  {
    var memberData' := memberData[k := memberData[k].(amount := amount)];
    forall l ensures MemberDataOk(members, memberData', l) {
      assert MemberDataOk(members, memberData, l);
    }
    forall l, l' ensures MemberDataKeyUnique(memberData', l, l') {
      assert MemberDataKeyUnique(memberData, l, l');
    }
  }

  /** The first post of a member to a category. */
  lemma AddMemberDataKeepsValid(members: map<nat, GroupMember>, memberData: map<nat, GroupMemberData>,
                                id: nat, record: GroupMemberData)
    requires MemberDataValid(members, memberData) && id !in memberData
    requires ValidMemberData(record) && record.groupMember in members
    requires members[record.groupMember].groupId == record.groupId
    requires !HasMemberData(memberData, record.groupMember, record.groupId, record.category)
    ensures MemberDataValid(members, memberData[id := record])
  {
    var memberData' := memberData[id := record];
    forall l ensures MemberDataOk(members, memberData', l) {
      assert MemberDataOk(members, memberData, l);
    }
    forall l, l' ensures MemberDataKeyUnique(memberData', l, l') {
      assert MemberDataKeyUnique(memberData, l, l');
    }
  }

  /** Deleting one member-data record. */
  lemma RemoveMemberDataKeepsValid(members: map<nat, GroupMember>, memberData: map<nat, GroupMemberData>, k: nat)
    requires MemberDataValid(members, memberData)
    ensures MemberDataValid(members, memberData - {k})
  {
    var memberData' := memberData - {k};
    forall l ensures MemberDataOk(members, memberData', l) {
      assert MemberDataOk(members, memberData, l);
    }
    forall l, l' ensures MemberDataKeyUnique(memberData', l, l') {
      assert MemberDataKeyUnique(memberData, l, l');
    }
  }
}
