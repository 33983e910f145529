/** The stored record kinds, as the mongoose schemas under models/ declare
    them, and the checks that `save()` runs on a document before it is
    written. Ids are `nat`s standing for ObjectIds; timestamps (`createdAt`,
    `updatedAt`) are not part of this model. */
module Schema {

  /** Default of `User.budget`. */
  const DefaultBudget: int := 500

  /** One contribution in a Data record's history. `date` is the clock value
      at the time of the post, in milliseconds. */
  datatype HistoryEntry = HistoryEntry(amount: int, date: int)

  /** A registered user. `data` lists the ids of the user's Data records.
      The schema's `remaining` and `spents` fields are never written by the
      handlers and are left out. */
  datatype User = User(name: string, email: string, password: string, budget: int, data: seq<nat>)

  /** The running total for one (user, category) pair. There is no budget
      field: the schema declares none. */
  datatype Data = Data(user: nat, category: string, amount: int, history: seq<HistoryEntry>)

  datatype Group = Group(groupName: string, groupPassword: string, groupMembers: seq<nat>)

  /** A pseudonymous member of one group; `members` is the display name. */
  datatype GroupMember = GroupMember(members: string, password: string, spents: int, groupId: nat, membersData: seq<nat>)

  /** The running total for one (member, group, category) triple; no history. */
  datatype GroupMemberData = GroupMemberData(groupMember: nat, groupId: nat, category: string, amount: int)

  /** A `required: true` string rejects the empty string. */
  predicate Present(s: string)
  {
    s != []
  }

  /** models/user.models.js: name, email and password required, budget >= 0. */
  predicate ValidUser(u: User)
  {
    Present(u.name) && Present(u.email) && Present(u.password) && u.budget >= 0
  }

  /** models/data.models.js: category required, amount >= 0, every history
      amount >= 0. */
  predicate ValidData(d: Data)
  {
    && Present(d.category)
    && d.amount >= 0
    && forall i :: 0 <= i < |d.history| ==> d.history[i].amount >= 0
  }

  predicate ValidGroup(g: Group)
  {
    Present(g.groupName) && Present(g.groupPassword)
  }

  predicate ValidMember(m: GroupMember)
  {
    Present(m.members) && Present(m.password)
  }

  /** models/groupMembersData.models.js: category required; `amount` has no
      lower bound. */
  predicate ValidMemberData(md: GroupMemberData)
  {
    Present(md.category)
  }

  /** The sum of the amounts in a history. */
  function Total(h: seq<HistoryEntry>): (t: int)
  {
    if h == [] then 0 else h[0].amount + Total(h[1..])
  }

  /** A Data record whose running total agrees with its history. */
  predicate Balanced(d: Data)
  {
    d.amount == Total(d.history)
  }

  lemma {:induction false} TotalAppend(h: seq<HistoryEntry>, e: HistoryEntry)
    ensures Total(h + [e]) == Total(h) + e.amount
  {
    if h == [] {
      assert h + [e] == [e];
    } else {
      assert (h + [e])[1..] == h[1..] + [e];
      TotalAppend(h[1..], e);
    }
  }

  /** A history of non-negative amounts has a non-negative total, so in a
      balanced record the schema's `amount >= 0` follows from the history's. */
  lemma {:induction false} TotalNonNegative(h: seq<HistoryEntry>)
    requires forall i :: 0 <= i < |h| ==> h[i].amount >= 0
    ensures Total(h) >= 0
  {
    if h != [] {
      assert forall i :: 0 <= i < |h[1..]| ==> h[1..][i].amount == h[i + 1].amount;
      TotalNonNegative(h[1..]);
    }
  }
}
