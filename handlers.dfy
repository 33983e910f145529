/** The route handlers of index.js that change stored documents, as methods
    of one in-memory store. Each collection is a map from ids to records;
    one counter hands out fresh ids for all of them, as ObjectIds are unique
    across collections. Each handler runs as one atomic step and answers
    with the status tag of its HTTP response. */
module Handlers {
  import opened Schema
  import opened Crypt
  import opened Ledger
  import opened StoreState

  /** The HTTP status a handler answers with. */
  datatype Status =
    | Ok            // 200
    | Created       // 201
    | Unauthorized  // 401
    | NotFound      // 404
    | Conflict      // 409
    | Invalid       // 500: save() threw a validation error and the handler caught it

  class Store {
    var users: map<nat, User>
    var data: map<nat, Data>
    var groups: map<nat, Group>
    var members: map<nat, GroupMember>
    var memberData: map<nat, GroupMemberData>
    var nextId: nat

    ghost predicate Valid()
      reads this
    {
      && Below(users, nextId) && Below(data, nextId) && Below(groups, nextId)
      && Below(members, nextId) && Below(memberData, nextId)
      && UsersValid(users)
      && DataValid(users, data)
      && GroupsValid(groups, members)
      && MemberDataValid(members, memberData)
    }

    constructor ()
      ensures Valid()
      ensures users == map[] && data == map[] && groups == map[]
      ensures members == map[] && memberData == map[]
    {
      users, data, groups, members, memberData := map[], map[], map[], map[], map[];
      nextId := 0;
    }

    /** POST /signup (index.js:61-86). */
    method Signup(name: string, email: string, password: string) returns (s: Status, id: nat)
      requires Valid()
      modifies this
      ensures Valid()
      ensures s == Conflict <==> HasEmail(old(users), email)
      ensures s == Invalid <==> !HasEmail(old(users), email) && !(Present(name) && Present(email))
      ensures s == Created <==> !HasEmail(old(users), email) && Present(name) && Present(email)
      ensures s == Created ==>
                && id == old(nextId) && nextId == old(nextId) + 1
                && users == old(users)[id := User(name, email, Hash(password), DefaultBudget, [])]
      ensures s != Created ==> unchanged(this)
      ensures unchanged(this`data, this`groups, this`members, this`memberData)
    {
      if HasEmail(users, email) {
        return Conflict, 0;
      }
      var user := User(name, email, Hash(password), DefaultBudget, []);
      if !ValidUser(user) {
        return Invalid, 0;
      }
      id := nextId;
      nextId := nextId + 1;
      AddUserKeepsValid(users, data, id, user);
      users := users[id := user];
      s := Created;
    }

    /** DELETE /users/:id (index.js:113-129): deletes every Data record of the
        user, then the user. `result.deleteCount` is never defined, so the
        answer is 404 whether or not a user was deleted. */
    method DeleteUser(id: nat) returns (s: Status)
      requires Valid()
      modifies this
      ensures Valid()
      ensures s == NotFound
      ensures users == old(users) - {id}
      ensures data == DropOwner(old(data), id)
      ensures unchanged(this`groups, this`members, this`memberData, this`nextId)
    {
      DeleteUserKeepsValid(users, data, id);
      data := DropOwner(data, id);
      users := users - {id};
      s := NotFound;
    }

    /** POST /users/:userId/data (index.js:132-176): adds `amount` to the
        user's record for `category`, creating the record (and listing its
        id on the user) on the first post. `budget` is accepted and
        ignored: the Data schema has no field to hold it. `now` is the
        clock reading stored in the history entry. */
    method PostUserData(userId: nat, category: string, amount: int, budget: int, now: int)
      returns (s: Status, id: nat)
      requires Valid()
      modifies this
      ensures Valid()
      ensures s == NotFound <==> userId !in old(users)
      ensures s == Invalid <==> userId in old(users) && (amount < 0 || !Present(category))
      ensures s == Ok <==> userId in old(users) && amount >= 0 && HasData(old(data), userId, category)
      ensures s == Created <==>
                userId in old(users) && amount >= 0 && Present(category) && !HasData(old(data), userId, category)
      ensures s == Ok ==>
                && id in old(data) && old(data)[id].user == userId && old(data)[id].category == category
                && data == old(data)[id := Deposit(old(data)[id], amount, now)]
                && users == old(users) && nextId == old(nextId)
      ensures s == Created ==>
                && id == old(nextId) && nextId == old(nextId) + 1
                && data == old(data)[id := NewData(userId, category, amount, now)]
                && users == old(users)[userId := old(users)[userId].(data := old(users)[userId].data + [id])]
      ensures s == NotFound || s == Invalid ==> unchanged(this)
      ensures unchanged(this`groups, this`members, this`memberData)
    {
      if userId !in users {
        return NotFound, 0;
      }
      if HasData(data, userId, category) {
        var k :| k in data && data[k].user == userId && data[k].category == category;
        assert DataOk(users, data, k);
        var updated := Deposit(data[k], amount, now);
        DepositValidIff(data[k], amount, now);
        if !ValidData(updated) {
          return Invalid, 0;
        }
        DepositKeepsValid(users, data, k, amount, now);
        data := data[k := updated];
        return Ok, k;
      }
      var created := NewData(userId, category, amount, now);
      NewDataValidIff(userId, category, amount, now);
      if !ValidData(created) {
        return Invalid, 0;
      }
      assert !HasData(old(data), userId, category) && Present(category) && amount >= 0;
      id := nextId;
      var listed := users[userId := users[userId].(data := users[userId].data + [id])];
      AddDataKeepsValid(users, data, userId, id, category, amount, now);
      BelowNext(data, id, created);
      BelowNext(users, id, listed[userId]);
      users, data, nextId := listed, data[id := created], id + 1;
      s := Created;
    }

    /** POST /users/:userId/budget (index.js:178-216): stores the new budget
        and reports how it compares with the previous one. A negative budget
        fails the schema's `min: 0` and is not stored. */
    method UpdateBudget(userId: nat, budget: int) returns (s: Status, report: BudgetReport)
      requires Valid()
      modifies this
      ensures Valid()
      ensures s == NotFound <==> userId !in old(users)
      ensures s == Invalid <==> userId in old(users) && budget < 0
      ensures s == Ok <==> userId in old(users) && budget >= 0
      ensures s == Ok ==>
                && users == old(users)[userId := old(users)[userId].(budget := budget)]
                && report == BudgetReport(Classify(old(users)[userId].budget, budget), budget, old(users)[userId].budget)
      ensures s != Ok ==> unchanged(this)
      ensures unchanged(this`data, this`groups, this`members, this`memberData, this`nextId)
    {
      report := BudgetReport(Unchanged, budget, budget);
      if userId !in users {
        return NotFound, report;
      }
      assert UserOk(users, userId);
      var prevBudget := users[userId].budget;
      var user := users[userId].(budget := budget);
      if !ValidUser(user) {
        return Invalid, report;
      }
      SetBudgetKeepsValid(users, data, userId, budget);
      users := users[userId := user];
      s, report := Ok, BudgetReport(Classify(prevBudget, budget), budget, prevBudget);
    }

    /** DELETE /users/:userId/data/:dataId (index.js:236-257): deletes the
        record only when it belongs to the user, then drops its id from the
        user's `data` list. */
    method DeleteUserData(userId: nat, dataId: nat) returns (s: Status)
      requires Valid()
      modifies this
      ensures Valid()
      ensures s == Ok <==> userId in old(users) && dataId in old(data) && old(data)[dataId].user == userId
      ensures s == Ok || s == NotFound
      ensures s == Ok ==>
                && data == old(data) - {dataId}
                && users == old(users)[userId := old(users)[userId].(data := Without(old(users)[userId].data, dataId))]
      ensures s == NotFound ==> unchanged(this)
      ensures unchanged(this`groups, this`members, this`memberData, this`nextId)
    {
      if userId !in users {
        return NotFound;
      }
      if !(dataId in data && data[dataId].user == userId) {
        return NotFound;
      }
      RemoveDataKeepsValid(users, data, userId, dataId);
      data := data - {dataId};
      users := users[userId := users[userId].(data := Without(users[userId].data, dataId))];
      s := Ok;
    }

    /** POST /create-group (index.js:262-290). */
    method CreateGroup(groupName: string, groupPassword: string) returns (s: Status, id: nat)
      requires Valid()
      modifies this
      ensures Valid()
      ensures s == Conflict <==> HasGroupNamed(old(groups), groupName)
      ensures s == Invalid <==> !HasGroupNamed(old(groups), groupName) && !Present(groupName)
      ensures s == Created <==> !HasGroupNamed(old(groups), groupName) && Present(groupName)
      ensures s == Created ==>
                && id == old(nextId) && nextId == old(nextId) + 1
                && groups == old(groups)[id := Group(groupName, Hash(groupPassword), [])]
      ensures s != Created ==> unchanged(this)
      ensures unchanged(this`users, this`data, this`members, this`memberData)
    {
      if HasGroupNamed(groups, groupName) {
        return Conflict, 0;
      }
      var group := Group(groupName, Hash(groupPassword), []);
      if !ValidGroup(group) {
        return Invalid, 0;
      }
      id := nextId;
      nextId := nextId + 1;
      AddGroupKeepsValid(groups, members, id, group);
      groups := groups[id := group];
      s := Created;
    }

    /** POST /join-group (index.js:293-362): a member is identified by its
        display name within the group. An existing member must give its
        password and gets back its `spents`; an unknown name creates a new
        member with `spents` 0 and lists it on the group. `gid` is the group
        found by name. */
    method JoinGroup(groupName: string, groupPassword: string, memberName: string, memberPassword: string)
      returns (s: Status, gid: nat, memberId: nat, spents: int)
      requires Valid()
      modifies this
      ensures Valid()
      ensures s == NotFound <==> !HasGroupNamed(old(groups), groupName)
      ensures s != NotFound ==> gid in old(groups) && old(groups)[gid].groupName == groupName
      ensures s != NotFound && !Matches(groupPassword, old(groups)[gid].groupPassword) ==> s == Unauthorized
      ensures s != NotFound && Matches(groupPassword, old(groups)[gid].groupPassword)
              && HasMember(old(members), gid, memberName) ==>
                && memberId in old(members) && old(members)[memberId].groupId == gid
                && old(members)[memberId].members == memberName
                && (s == Ok <==> Matches(memberPassword, old(members)[memberId].password))
                && (s == Unauthorized <==> !Matches(memberPassword, old(members)[memberId].password))
      ensures s != NotFound && Matches(groupPassword, old(groups)[gid].groupPassword)
              && !HasMember(old(members), gid, memberName) ==>
                (s == Created <==> Present(memberName)) && (s == Invalid <==> !Present(memberName))
      ensures s == Ok ==>
                && Matches(groupPassword, old(groups)[gid].groupPassword)
                && memberId in old(members) && old(members)[memberId].groupId == gid
                && old(members)[memberId].members == memberName
                && spents == old(members)[memberId].spents
      ensures s == Created ==>
                && Matches(groupPassword, old(groups)[gid].groupPassword)
                && !HasMember(old(members), gid, memberName)
                && memberId == old(nextId) && nextId == old(nextId) + 1 && spents == 0
                && members == old(members)[memberId := GroupMember(memberName, Hash(memberPassword), 0, gid, [])]
                && groups == old(groups)[gid := old(groups)[gid].(groupMembers := old(groups)[gid].groupMembers + [memberId])]
      ensures s != Created ==> unchanged(this)
      ensures unchanged(this`users, this`data, this`memberData)
    {
      if !HasGroupNamed(groups, groupName) {
        return NotFound, 0, 0, 0;
      }
      gid :| gid in groups && groups[gid].groupName == groupName;
      if !Matches(groupPassword, groups[gid].groupPassword) {
        return Unauthorized, gid, 0, 0;
      }
      if HasMember(members, gid, memberName) {
        var m :| m in members && members[m].groupId == gid && members[m].members == memberName;
        if Matches(memberPassword, members[m].password) {
          return Ok, gid, m, members[m].spents;
        }
        return Unauthorized, gid, m, 0;
      }
      var member := GroupMember(memberName, Hash(memberPassword), 0, gid, []);
      if !ValidMember(member) {
        return Invalid, gid, 0, 0;
      }
      memberId := nextId;
      nextId := nextId + 1;
      AddMemberKeepsValid(groups, members, memberData, memberId, member);
      members := members[memberId := member];
      groups := groups[gid := groups[gid].(groupMembers := groups[gid].groupMembers + [memberId])];
      s, spents := Created, 0;
    }

    /** POST /:groupId/members/:memberId/data (index.js:375-432): adds
        `amount` to the member's record for `category` in the group, creating
        it when absent, and adds `amount` to the member's `spents` on both
        paths. Both paths answer 200. `recordId` is the record written. */
    method PostMemberData(groupId: nat, memberId: nat, category: string, amount: int)
      returns (s: Status, recordId: nat)
      requires Valid()
      modifies this
      ensures Valid()
      ensures s == NotFound <==>
                !(groupId in old(groups) && memberId in old(members) && old(members)[memberId].groupId == groupId)
      ensures s == Invalid <==>
                groupId in old(groups) && memberId in old(members) && old(members)[memberId].groupId == groupId
                && !Present(category)
      ensures s == Ok || s == NotFound || s == Invalid
      ensures s == Ok ==>
                members == old(members)[memberId := old(members)[memberId].(spents := old(members)[memberId].spents + amount)]
      ensures s == Ok && HasMemberData(old(memberData), memberId, groupId, category) ==>
                && recordId in old(memberData) && old(memberData)[recordId].groupMember == memberId
                && old(memberData)[recordId].groupId == groupId && old(memberData)[recordId].category == category
                && memberData == old(memberData)[recordId := old(memberData)[recordId].(amount := old(memberData)[recordId].amount + amount)]
                && nextId == old(nextId)
      ensures s == Ok && !HasMemberData(old(memberData), memberId, groupId, category) ==>
                && recordId == old(nextId) && nextId == old(nextId) + 1
                && memberData == old(memberData)[recordId := GroupMemberData(memberId, groupId, category, amount)]
      ensures s != Ok ==> unchanged(this)
      ensures unchanged(this`users, this`data, this`groups)
    {
      if groupId !in groups {
        return NotFound, 0;
      }
      if !(memberId in members && members[memberId].groupId == groupId) {
        return NotFound, 0;
      }
      if HasMemberData(memberData, memberId, groupId, category) {
        recordId :| recordId in memberData && memberData[recordId].groupMember == memberId
                    && memberData[recordId].groupId == groupId && memberData[recordId].category == category;
        assert MemberDataOk(members, memberData, recordId);
        var spents := members[memberId].spents + amount;
        SaveMemberData(recordId, memberData[recordId].amount + amount);
        SaveSpents(memberId, spents);
        assert members == old(members)[memberId := old(members)[memberId].(spents := spents)];
        return Ok, recordId;
      }
      var record := GroupMemberData(memberId, groupId, category, amount);
      if !ValidMemberData(record) {
        return Invalid, 0;
      }
      var spents := members[memberId].spents + amount;
      recordId := InsertMemberData(record);
      SaveSpents(memberId, spents);
      s := Ok;
    }

    /** DELETE /:groupId/members/:memberId/data/:dataId (index.js:474-508):
        deletes the record only when it belongs to that member in that
        group. The member's `spents` is left as it was. */
    method DeleteMemberData(groupId: nat, memberId: nat, dataId: nat) returns (s: Status)
      requires Valid()
      modifies this
      ensures Valid()
      ensures s == Ok <==>
                && groupId in old(groups) && memberId in old(members) && old(members)[memberId].groupId == groupId
                && dataId in old(memberData) && old(memberData)[dataId].groupMember == memberId
                && old(memberData)[dataId].groupId == groupId
      ensures s == Ok || s == NotFound
      ensures s == Ok ==> memberData == old(memberData) - {dataId}
      ensures s == NotFound ==> unchanged(this)
      ensures unchanged(this`users, this`data, this`groups, this`members, this`nextId)
    {
      if groupId !in groups {
        return NotFound;
      }
      if !(memberId in members && members[memberId].groupId == groupId) {
        return NotFound;
      }
      if !(dataId in memberData && memberData[dataId].groupMember == memberId && memberData[dataId].groupId == groupId) {
        return NotFound;
      }
      RemoveMemberDataKeepsValid(members, memberData, dataId);
      memberData := memberData - {dataId};
      s := Ok;
    }

    // -------------------------------------------------------------------
    // Single-document writes the group handlers are made of

    /** Sets one member-data record's amount and saves it; PostMemberData
        passes the old amount plus the post (index.js:399-400). */
    method SaveMemberData(k: nat, amount: int)
      requires Valid() && k in memberData
      modifies this
      ensures Valid()
      ensures memberData == old(memberData)[k := old(memberData)[k].(amount := amount)]
      ensures unchanged(this`users, this`data, this`groups, this`members, this`nextId)
    {
      SetMemberAmountKeepsValid(members, memberData, k, amount);
      memberData := memberData[k := memberData[k].(amount := amount)];
    }

    /** Stores a new member-data record, for a (member, group, category)
        that has none yet, under the next fresh id (index.js:413-419). */
    method InsertMemberData(record: GroupMemberData) returns (id: nat)
      requires Valid()
      requires ValidMemberData(record) && record.groupMember in members
      requires members[record.groupMember].groupId == record.groupId
      requires !HasMemberData(memberData, record.groupMember, record.groupId, record.category)
      modifies this
      ensures Valid()
      ensures id == old(nextId) && nextId == old(nextId) + 1
      ensures memberData == old(memberData)[id := record]
      ensures unchanged(this`users, this`data, this`groups, this`members)
    {
      id := nextId;
      BelowNext(memberData, id, record);
      AddMemberDataKeepsValid(members, memberData, id, record);
      memberData, nextId := memberData[id := record], id + 1;
    }

    /** Sets one member's `spents` and saves it; PostMemberData passes the
        old `spents` plus the post (index.js:402-403, 421-422). */
    method SaveSpents(memberId: nat, spents: int)
      requires Valid() && memberId in members
      modifies this
      ensures Valid()
      ensures members == old(members)[memberId := old(members)[memberId].(spents := spents)]
      ensures unchanged(this`users, this`data, this`groups, this`memberData, this`nextId)
    {
      ChargeMemberKeepsValid(groups, members, memberData, memberId, spents);
      members := members[memberId := members[memberId].(spents := spents)];
    }
  }
}
