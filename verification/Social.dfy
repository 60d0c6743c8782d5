// Accounts, follows, blocks, invites and who may see what (internal/social):
// every operation is one step on the tables.
module Social {
  import opened Prelude

  type Id = string

  datatype Level = Private | Followers | Instance | Inherit | Unset

  datatype Status = Pending | Accepted

  datatype User = User(level: Level, disabled: bool, admin: bool)

  datatype Pair = Pair(from: Id, to: Id)

  datatype Invite = Invite(createdBy: Id, expires: int, usedBy: Option<Id>, revoked: bool)

  datatype Mode = Open | InviteOnly | Closed

  datatype Error = Invalid | NotFound | IsBlocked | SignupClosed | TooMany | LastAdmin | Constraint

  const MAX_OPEN_INVITES := 10

  datatype Net = Net(
    users: map<Id, User>,
    follows: map<Pair, Status>,
    blocks: set<Pair>,
    invites: map<string, Invite>)

  const EMPTY := Net(map[], map[], {}, map[])

  // ---- Reading ---------------------------------------------------------------

  /** blockedEitherWay. */
  predicate Blocked(net: Net, a: Id, b: Id) {
    Pair(a, b) in net.blocks || Pair(b, a) in net.blocks
  }

  predicate Follows(net: Net, a: Id, b: Id) {
    Pair(a, b) in net.follows && net.follows[Pair(a, b)] == Accepted
  }

  function Effective(item: Level, owner: Level): Level {
    if item.Unset? || item.Inherit? then owner else item
  }

  /** CanSee. */
  predicate CanSee(net: Net, viewer: Id, owner: Id, level: Level) {
    || viewer == owner
    || (&& owner in net.users
        && !net.users[owner].disabled
        && !Blocked(net, viewer, owner)
        && match Effective(level, net.users[owner].level)
           case Instance => true
           case Followers => Follows(net, viewer, owner)
           case _ => false)
  }

  predicate IsAdmin(net: Net, id: Id) {
    id in net.users && net.users[id].admin && !net.users[id].disabled
  }

  function Admins(net: Net): set<Id> {
    set id | id in net.users && IsAdmin(net, id)
  }

  // ---- Operations ------------------------------------------------------------

  datatype Reply<T> = Reply(net: Net, r: Result<T, Error>)

  /** The first half of Follow: what status a new follow would get. */
  function FollowStatus(net: Net, viewer: Id, target: Id): Result<Status, Error> {
    if viewer == target then Err(Invalid)
    else if target !in net.users || net.users[target].disabled then Err(NotFound)
    else if Blocked(net, viewer, target) then Err(IsBlocked)
    else Ok(if net.users[target].level.Instance? then Accepted else Pending)
  }

  /** The second half, its transaction: an existing follow stays as it is. */
  function AddFollow(net: Net, viewer: Id, target: Id, status: Status): Reply<Status> {
    var p := Pair(viewer, target);
    if p in net.follows then Reply(net, Ok(net.follows[p]))
    else if viewer == target || viewer !in net.users || target !in net.users then Reply(net, Err(Constraint))
    else Reply(net.(follows := net.follows[p := status]), Ok(status))
  }

  function Follow(net: Net, viewer: Id, target: Id): Reply<Status> {
    var status := FollowStatus(net, viewer, target);
    if status.Err? then Reply(net, Err(status.error)) else AddFollow(net, viewer, target, status.value)
  }

  function Unfollow(net: Net, viewer: Id, target: Id): Net {
    net.(follows := net.follows - {Pair(viewer, target)})
  }

  function Accept(net: Net, viewer: Id, requester: Id): Reply<()> {
    var p := Pair(requester, viewer);
    if p in net.follows && net.follows[p] == Pending then Reply(net.(follows := net.follows[p := Accepted]), Ok(()))
    else Reply(net, Err(NotFound))
  }

  function Block(net: Net, viewer: Id, target: Id): Reply<()> {
    if viewer == target then Reply(net, Err(Invalid))
    else if viewer !in net.users || target !in net.users then Reply(net, Err(Constraint))
    else
      Reply(net.(blocks := net.blocks + {Pair(viewer, target)},
                 follows := net.follows - {Pair(viewer, target), Pair(target, viewer)}),
            Ok(()))
  }

  function Unblock(net: Net, viewer: Id, target: Id): Net {
    net.(blocks := net.blocks - {Pair(viewer, target)})
  }

  /** Requests to an account open to the instance are accepted. */
  function AcceptAll(follows: map<Pair, Status>, id: Id): map<Pair, Status> {
    map p | p in follows :: if p.to == id then Accepted else follows[p]
  }

  /** The visibility part of UpdateProfile. */
  function SetVisibility(net: Net, id: Id, level: Level): Reply<()> {
    if level.Inherit? || level.Unset? then Reply(net, Err(Invalid))
    else if id !in net.users then Reply(net, Err(NotFound))
    else
      Reply(net.(users := net.users[id := net.users[id].(level := level)],
                 follows := if level.Instance? then AcceptAll(net.follows, id) else net.follows),
            Ok(()))
  }

  /** An admin's change of role or of the disabled flag; none for a field leaves it. */
  function EditUser(net: Net, id: Id, admin: Option<bool>, disabled: Option<bool>): Reply<()> {
    if id !in net.users then Reply(net, Err(NotFound))
    else
      var u := net.users[id];
      var losing := IsAdmin(net, id) && (admin == Some(false) || disabled == Some(true));
      if losing && |Admins(net)| <= 1 then Reply(net, Err(LastAdmin))
      else
        var u1 := if admin.Some? then u.(admin := admin.value) else u;
        var u2 := if disabled.Some? then u1.(disabled := disabled.value) else u1;
        Reply(net.(users := net.users[id := u2]), Ok(()))
  }

  /** The invite a token names, if it can be used now. */
  function UsableInvite(net: Net, token: Option<string>, now: int): Option<Invite> {
    if token.None? || token.value !in net.invites then None
    else
      var i := net.invites[token.value];
      if i.usedBy.None? && !i.revoked && i.expires > now && i.createdBy in net.users && !net.users[i.createdBy].disabled
      then Some(i) else None
  }

  /** Who invites: in closed mode only an admin can. */
  function Inviter(net: Net, mode: Mode, token: Option<string>, now: int): Option<Id> {
    var i := UsableInvite(net, token, now);
    if i.None? || (mode.Closed? && !net.users[i.value.createdBy].admin) then None else Some(i.value.createdBy)
  }

  function CreateUser(net: Net, mode: Mode, id: Id, token: Option<string>, now: int): Reply<()> {
    var inviter := Inviter(net, mode, token, now);
    if net.users != map[] && !mode.Open? && inviter.None? then Reply(net, Err(SignupClosed))
    else if id in net.users then Reply(net, Err(Constraint))
    else
      var joined := net.(users := net.users[id := User(Private, false, net.users == map[])]);
      if inviter.None? then Reply(joined, Ok(()))
      else
        Reply(joined.(invites := net.invites[token.value := net.invites[token.value].(usedBy := Some(id))],
                      follows := net.follows[Pair(id, inviter.value) := Accepted][Pair(inviter.value, id) := Accepted]),
              Ok(()))
  }

  function OpenInvites(net: Net, id: Id, now: int): set<string> {
    set t | t in net.invites
            && net.invites[t].createdBy == id && net.invites[t].usedBy.None? && !net.invites[t].revoked
            && net.invites[t].expires > now
  }

  /** The token is fresh random text; the link lasts for a time to live. */
  function CreateInvite(net: Net, id: Id, mode: Mode, token: string, now: int, ttl: nat): Reply<()> {
    var admin := IsAdmin(net, id);
    if mode.Closed? && !admin then Reply(net, Err(SignupClosed))
    else if |OpenInvites(net, id, now)| >= MAX_OPEN_INVITES && !admin then Reply(net, Err(TooMany))
    else if id !in net.users || token in net.invites then Reply(net, Err(Constraint))
    else Reply(net.(invites := net.invites[token := Invite(id, now + ttl, None, false)]), Ok(()))
  }

  function RevokeInvite(net: Net, id: Id, token: string): Reply<()> {
    if token !in net.invites || net.invites[token].usedBy.Some?
       || (!IsAdmin(net, id) && net.invites[token].createdBy != id)
    then Reply(net, Err(NotFound))
    else Reply(net.(invites := net.invites[token := net.invites[token].(revoked := true)]), Ok(()))
  }

  /** Deleting an account, with what the foreign keys do. */
  function DeleteUser(net: Net, id: Id): Net {
    Net(net.users - {id},
        map p | p in net.follows && p.from != id && p.to != id :: net.follows[p],
        set p | p in net.blocks && p.from != id && p.to != id,
        map t | t in net.invites && net.invites[t].createdBy != id ::
          if net.invites[t].usedBy == Some(id) then net.invites[t].(usedBy := None) else net.invites[t])
  }

  // ---- The store as an object ------------------------------------------------

  class Store {
    var users: map<Id, User>
    var follows: map<Pair, Status>
    var blocks: set<Pair>
    var invites: map<string, Invite>

    constructor ()
      ensures Current() == EMPTY
    {
      users, follows, blocks, invites := map[], map[], {}, map[];
    }

    function Current(): Net
      reads this
    {
      Net(users, follows, blocks, invites)
    }

    method FollowUser(viewer: Id, target: Id) returns (r: Result<Status, Error>)
      modifies this
      ensures Reply(Current(), r) == Follow(old(Current()), viewer, target)
    {
      if viewer == target {
        return Err(Invalid);
      }
      if target !in users || users[target].disabled {
        return Err(NotFound);
      }
      if Blocked(Current(), viewer, target) {
        return Err(IsBlocked);
      }
      var status := Pending;
      if users[target].level == Instance {
        status := Accepted;
      }
      var p := Pair(viewer, target);
      if p in follows {
        return Ok(follows[p]);
      }
      if viewer !in users {
        return Err(Constraint);
      }
      follows := follows[p := status];
      return Ok(status);
    }

    method UnfollowUser(viewer: Id, target: Id)
      modifies this`follows
      ensures Current() == Unfollow(old(Current()), viewer, target)
    {
      follows := follows - {Pair(viewer, target)};
    }

    method AcceptRequest(viewer: Id, requester: Id) returns (r: Result<(), Error>)
      modifies this`follows
      ensures Reply(Current(), r) == Accept(old(Current()), viewer, requester)
    {
      var p := Pair(requester, viewer);
      if p !in follows || follows[p] != Pending {
        return Err(NotFound);
      }
      follows := follows[p := Accepted];
      return Ok(());
    }

    method RemoveFollower(viewer: Id, follower: Id)
      modifies this`follows
      ensures Current() == Unfollow(old(Current()), follower, viewer)
    {
      follows := follows - {Pair(follower, viewer)};
    }

    method BlockUser(viewer: Id, target: Id) returns (r: Result<(), Error>)
      modifies this
      ensures Reply(Current(), r) == Block(old(Current()), viewer, target)
    {
      if viewer == target {
        return Err(Invalid);
      }
      if viewer !in users || target !in users {
        return Err(Constraint);
      }
      blocks := blocks + {Pair(viewer, target)};
      follows := follows - {Pair(viewer, target), Pair(target, viewer)};
      return Ok(());
    }

    method UnblockUser(viewer: Id, target: Id)
      modifies this`blocks
      ensures Current() == Unblock(old(Current()), viewer, target)
    {
      blocks := blocks - {Pair(viewer, target)};
    }

    method UpdateVisibility(id: Id, level: Level) returns (r: Result<(), Error>)
      modifies this
      ensures Reply(Current(), r) == SetVisibility(old(Current()), id, level)
    {
      if level == Inherit || level == Unset {
        return Err(Invalid);
      }
      if id !in users {
        return Err(NotFound);
      }
      users := users[id := users[id].(level := level)];
      if level == Instance {
        follows := AcceptAll(follows, id);
      }
      return Ok(());
    }

    method AddUser(mode: Mode, id: Id, token: Option<string>, now: int) returns (r: Result<(), Error>)
      modifies this
      ensures Reply(Current(), r) == CreateUser(old(Current()), mode, id, token, now)
    {
      var first := users == map[];
      var inviter: Option<Id> := None;
      var usable := UsableInvite(Current(), token, now);
      if usable.Some? {
        inviter := Some(usable.value.createdBy);
        if mode == Closed && !users[usable.value.createdBy].admin {
          inviter := None;
        }
      }
      if !first && mode != Open && inviter == None {
        return Err(SignupClosed);
      }
      if id in users {
        return Err(Constraint);
      }
      users := users[id := User(Private, false, first)];
      if inviter.Some? {
        invites := invites[token.value := invites[token.value].(usedBy := Some(id))];
        follows := follows[Pair(id, inviter.value) := Accepted];
        follows := follows[Pair(inviter.value, id) := Accepted];
      }
      return Ok(());
    }

    method MaySee(viewer: Id, owner: Id, level: Level) returns (ok: bool)
      ensures ok == CanSee(Current(), viewer, owner, level)
    {
      if viewer == owner {
        return true;
      }
      if owner !in users {
        return false;
      }
      var u := users[owner];
      if u.disabled {
        return false;
      }
      if Blocked(Current(), viewer, owner) {
        return false;
      }
      match Effective(level, u.level) {
        case Instance => return true;
        case Followers => return Follows(Current(), viewer, owner);
        case _ => return false;
      }
    }
  }

  // ---- Runs and their invariant ----------------------------------------------

  datatype Op =
    | DoFollow(viewer: Id, target: Id)
    | DoUnfollow(viewer: Id, target: Id)
    | DoAccept(viewer: Id, requester: Id)
    | DoBlock(viewer: Id, target: Id)
    | DoUnblock(viewer: Id, target: Id)
    | DoVisibility(id: Id, level: Level)
    | DoEdit(id: Id, admin: Option<bool>, disabled: Option<bool>)
    | DoCreate(mode: Mode, id: Id, token: Option<string>, now: int)
    | DoInvite(id: Id, mode: Mode, newToken: string, now: int, ttl: nat)
    | DoRevoke(id: Id, oldToken: string)
    | DoDelete(id: Id)

  function Apply(net: Net, op: Op): Net {
    match op
    case DoFollow(v, t) => Follow(net, v, t).net
    case DoUnfollow(v, t) => Unfollow(net, v, t)
    case DoAccept(v, r) => Accept(net, v, r).net
    case DoBlock(v, t) => Block(net, v, t).net
    case DoUnblock(v, t) => Unblock(net, v, t)
    case DoVisibility(id, level) => SetVisibility(net, id, level).net
    case DoEdit(id, admin, disabled) => EditUser(net, id, admin, disabled).net
    case DoCreate(mode, id, token, now) => CreateUser(net, mode, id, token, now).net
    case DoInvite(id, mode, token, now, ttl) => CreateInvite(net, id, mode, token, now, ttl).net
    case DoRevoke(id, token) => RevokeInvite(net, id, token).net
    case DoDelete(id) => DeleteUser(net, id)
  }

  function RunFrom(net: Net, ops: seq<Op>): Net {
    if ops == [] then net else Apply(RunFrom(net, ops[..|ops| - 1]), ops[|ops| - 1])
  }

  function Run(ops: seq<Op>): Net {
    RunFrom(EMPTY, ops)
  }

  ghost predicate KeysHold(net: Net) {
    && (forall p <- net.follows :: p.from in net.users && p.to in net.users && p.from != p.to)
    && (forall p <- net.blocks :: p.from in net.users && p.to in net.users && p.from != p.to)
    && (forall t <- net.invites :: net.invites[t].createdBy in net.users)
    && (forall id <- net.users :: !net.users[id].level.Inherit? && !net.users[id].level.Unset?)
  }

  /** A block in either direction means no follow in either direction. */
  ghost predicate BlocksSever(net: Net) {
    forall p <- net.follows :: !Blocked(net, p.from, p.to)
  }

  /** Nobody waits for an account that is open to the instance. */
  ghost predicate NoneWait(net: Net) {
    forall p <- net.follows :: p.to in net.users && net.users[p.to].level.Instance? ==> net.follows[p] == Accepted
  }

  ghost predicate Inv(net: Net) {
    KeysHold(net) && BlocksSever(net) && NoneWait(net)
  }

  lemma StepKeepsInv(net: Net, op: Op)
    requires Inv(net)
    ensures Inv(Apply(net, op))
  {
    hide KeysHold, BlocksSever, NoneWait, Apply;
    StepKeepsKeys(net, op);
    StepKeepsBlocks(net, op);
    StepKeepsNone(net, op);
  }

  lemma StepKeepsKeys(net: Net, op: Op)
    requires KeysHold(net)
    ensures KeysHold(Apply(net, op))
  {
    hide KeysHold, CreateUser, DeleteUser, Follow, SetVisibility, Accept, Block, CreateInvite;
    match op
    case DoFollow(v, t) => FollowKeepsKeys(net, v, t);
    case DoUnfollow(_, _) => DropsKeepKeys(net, op);
    case DoAccept(_, _) => DropsKeepKeys(net, op);
    case DoBlock(v, t) => BlockKeepsKeys(net, v, t);
    case DoUnblock(_, _) => DropsKeepKeys(net, op);
    case DoVisibility(id, level) => VisibilityKeepsKeys(net, id, level);
    case DoEdit(_, _, _) => DropsKeepKeys(net, op);
    case DoCreate(mode, id, token, now) => CreateKeepsKeys(net, mode, id, token, now);
    case DoInvite(id, mode, token, now, ttl) => InviteKeepsKeys(net, id, mode, token, now, ttl);
    case DoRevoke(_, _) => DropsKeepKeys(net, op);
    case DoDelete(id) => DeleteKeepsKeys(net, id);
  }

  /** Operations that add no row. */
  lemma DropsKeepKeys(net: Net, op: Op)
    requires KeysHold(net) && (op.DoUnfollow? || op.DoAccept? || op.DoUnblock? || op.DoEdit? || op.DoRevoke?)
    ensures KeysHold(Apply(net, op))
  {
    hide Admins;
  }

  lemma FollowKeepsKeys(net: Net, viewer: Id, target: Id)
    requires KeysHold(net)
    ensures KeysHold(Follow(net, viewer, target).net)
  {
    hide Blocked;
  }

  lemma BlockKeepsKeys(net: Net, viewer: Id, target: Id)
    requires KeysHold(net)
    ensures KeysHold(Block(net, viewer, target).net)
  {
  }

  lemma VisibilityKeepsKeys(net: Net, id: Id, level: Level)
    requires KeysHold(net)
    ensures KeysHold(SetVisibility(net, id, level).net)
  {
  }

  lemma CreateKeepsKeys(net: Net, mode: Mode, id: Id, token: Option<string>, now: int)
    requires KeysHold(net)
    ensures KeysHold(CreateUser(net, mode, id, token, now).net)
  {
  }

  lemma InviteKeepsKeys(net: Net, id: Id, mode: Mode, token: string, now: int, ttl: nat)
    requires KeysHold(net)
    ensures KeysHold(CreateInvite(net, id, mode, token, now, ttl).net)
  {
    hide OpenInvites;
  }

  lemma DeleteKeepsKeys(net: Net, id: Id)
    requires KeysHold(net)
    ensures KeysHold(DeleteUser(net, id))
  {
  }

  lemma StepKeepsBlocks(net: Net, op: Op)
    requires KeysHold(net) && BlocksSever(net)
    ensures BlocksSever(Apply(net, op))
  {
  }

  lemma StepKeepsNone(net: Net, op: Op)
    requires KeysHold(net) && NoneWait(net)
    ensures NoneWait(Apply(net, op))
  {
  }

  lemma {:induction false} RunFromKeepsInv(net: Net, ops: seq<Op>)
    requires Inv(net)
    ensures Inv(RunFrom(net, ops))
  {
    hide Inv, Apply;
    if ops != [] {
      RunFromKeepsInv(net, ops[..|ops| - 1]);
      StepKeepsInv(RunFrom(net, ops[..|ops| - 1]), ops[|ops| - 1]);
    }
  }

  /** Every state an instance can reach keeps the invariant. */
  lemma RunKeepsInv(ops: seq<Op>)
    ensures Inv(Run(ops))
  {
    hide Inv, Apply;
    EmptyInv();
    RunFromKeepsInv(EMPTY, ops);
  }

  lemma EmptyInv()
    ensures Inv(EMPTY)
  {
  }

  /**
   * In every reachable state a block cuts both ways: no follow or request, and nothing of the other
   * can be seen at any level.
   */
  lemma BlockSeparates(ops: seq<Op>, a: Id, b: Id)
    requires Blocked(Run(ops), a, b)
    ensures a != b
    ensures Pair(a, b) !in Run(ops).follows && Pair(b, a) !in Run(ops).follows
    ensures forall level :: !CanSee(Run(ops), a, b, level) && !CanSee(Run(ops), b, a, level)
  {
    hide Run;
    RunKeepsInv(ops);
    var net := Run(ops);
    if Pair(a, b) in net.follows || Pair(b, a) in net.follows {
      assert false;
    }
  }

  /**
   * Follow reads the level and the blocks before its transaction: an insert decided on an older state
   * keeps the invariant exactly when nothing is inserted or the decision still stands.
   */
  lemma StaleFollow(net: Net, viewer: Id, target: Id, status: Status)
    requires Inv(net)
    ensures Inv(AddFollow(net, viewer, target, status).net) <==>
            (|| AddFollow(net, viewer, target, status).net == net
             || (!Blocked(net, viewer, target) && (net.users[target].level.Instance? ==> status == Accepted)))
  {
    var after := AddFollow(net, viewer, target, status).net;
    if after != net {
      assert Pair(viewer, target) in after.follows;
      assert Blocked(after, viewer, target) == Blocked(net, viewer, target);
    }
  }

  /** Blocking someone between the two halves of their Follow leaves the follow beside the block. */
  lemma BlockDuringFollow(net: Net, viewer: Id, target: Id)
    requires Inv(net) && viewer in net.users && Pair(viewer, target) !in net.follows
    requires FollowStatus(net, viewer, target).Ok?
    ensures var blocked := Block(net, target, viewer);
            && blocked.r == Ok(())
            && !BlocksSever(AddFollow(blocked.net, viewer, target, FollowStatus(net, viewer, target).value).net)
  {
    var blocked := Block(net, target, viewer).net;
    var after := AddFollow(blocked, viewer, target, FollowStatus(net, viewer, target).value).net;
    assert Pair(viewer, target) in after.follows && Blocked(after, viewer, target);
  }

  // ---- Consent ---------------------------------------------------------------

  /** The step makes a follow b with b's consent: b is open, accepts, opens up, or one invited the other. */
  predicate Consents(net: Net, op: Op, a: Id, b: Id) {
    || (op == DoFollow(a, b) && b in net.users && net.users[b].level.Instance?)
    || op == DoAccept(b, a)
    || (op == DoVisibility(b, Instance) && Pair(a, b) in net.follows)
    || (&& op.DoCreate?
        && Inviter(net, op.mode, op.token, op.now).Some?
        && {a, b} == {op.id, Inviter(net, op.mode, op.token, op.now).value})
  }

  /** An accepted follow appears only by such a step. */
  lemma FollowNeedsConsent(net: Net, op: Op, a: Id, b: Id)
    requires !Follows(net, a, b) && Follows(Apply(net, op), a, b)
    ensures Consents(net, op, a, b)
  {
  }

  /** So behind every follow there is one, and the follow has stood ever since. */
  lemma {:induction false} EveryFollowConsented(ops: seq<Op>, a: Id, b: Id) returns (k: nat)
    requires Follows(Run(ops), a, b)
    ensures k < |ops| && Consents(Run(ops[..k]), ops[k], a, b)
    ensures forall j | k < j <= |ops| :: Follows(Run(ops[..j]), a, b)
    decreases |ops|
  {
    hide Apply, Consents;
    assert ops != [];
    var before := ops[..|ops| - 1];
    assert ops[..|ops|] == ops;
    if Follows(Run(before), a, b) {
      k := EveryFollowConsented(before, a, b);
      assert ops[..k] == before[..k];
      forall j | k < j <= |ops| ensures Follows(Run(ops[..j]), a, b) {
        if j < |ops| { assert ops[..j] == before[..j]; }
      }
    } else {
      k := |ops| - 1;
      FollowNeedsConsent(Run(before), ops[k], a, b);
    }
  }

  // ---- Requests ----------------------------------------------------------------

  predicate Waits(net: Net, a: Id, b: Id) {
    Pair(a, b) in net.follows && net.follows[Pair(a, b)] == Pending
  }

  /** What ends a's request to b: an answer, a withdrawal, a block, b opening up, or either account's deletion. */
  predicate Settles(op: Op, a: Id, b: Id) {
    || op == DoAccept(b, a) || op == DoUnfollow(a, b) || op == DoBlock(a, b) || op == DoBlock(b, a)
    || op == DoVisibility(b, Instance) || op == DoDelete(a) || op == DoDelete(b)
  }

  lemma RequestWaits(net: Net, op: Op, a: Id, b: Id)
    requires Inv(net) && Waits(net, a, b)
    ensures Waits(Apply(net, op), a, b) <==> !Settles(op, a, b)
  {
    assert Pair(a, b) in net.follows;
    hide BlocksSever, NoneWait;
    if Settles(op, a, b) {
      RequestEnds(net, op, a, b);
    } else {
      RequestGoesOn(net, op, a, b);
    }
    hide Inv, Apply;
  }

  lemma RequestEnds(net: Net, op: Op, a: Id, b: Id)
    requires KeysHold(net) && Waits(net, a, b) && Settles(op, a, b)
    ensures !Waits(Apply(net, op), a, b)
  {
    assert Pair(a, b) in net.follows;
  }

  lemma RequestGoesOn(net: Net, op: Op, a: Id, b: Id)
    requires KeysHold(net) && Waits(net, a, b) && !Settles(op, a, b)
    ensures Waits(Apply(net, op), a, b)
  {
    assert Pair(a, b) in net.follows;
    hide Admins, OpenInvites;
  }

  lemma {:induction false} RequestStillWaits(net: Net, ops: seq<Op>, a: Id, b: Id)
    requires Inv(net) && Waits(net, a, b) && forall op <- ops :: !Settles(op, a, b)
    ensures Waits(RunFrom(net, ops), a, b)
  {
    hide Inv, Apply, Settles;
    if ops != [] {
      var before := ops[..|ops| - 1];
      assert forall op <- before :: op in ops;
      assert ops[|ops| - 1] in ops;
      RequestStillWaits(net, before, a, b);
      RunFromKeepsInv(net, before);
      RequestWaits(RunFrom(net, before), ops[|ops| - 1], a, b);
    }
  }

  /**
   * A request that was not settled can be accepted whatever else happened, is a follow from then on,
   * and until then shows nothing that needs one.
   */
  lemma RequestThenAccept(net: Net, viewer: Id, target: Id, between: seq<Op>)
    requires Inv(net) && viewer in net.users && Pair(viewer, target) !in net.follows
    requires FollowStatus(net, viewer, target) == Ok(Pending)
    requires forall op <- between :: !Settles(op, viewer, target)
    ensures var asked := RunFrom(Follow(net, viewer, target).net, between);
            var accepted := Accept(asked, target, viewer);
            && Inv(asked) && accepted.r == Ok(())
            && Follows(accepted.net, viewer, target) && !Follows(asked, viewer, target)
            && !CanSee(asked, viewer, target, Followers)
            && (CanSee(accepted.net, viewer, target, Followers) <==> !asked.users[target].disabled)
  {
    hide RunFrom;
    StepKeepsInv(net, DoFollow(viewer, target));
    var asking := Follow(net, viewer, target).net;
    RequestStillWaits(asking, between, viewer, target);
    RunFromKeepsInv(asking, between);
    var asked := RunFrom(asking, between);
    assert Pair(viewer, target) in asked.follows;
    assert !Blocked(asked, viewer, target);
  }

  // ---- The predicate in SQL ---------------------------------------------------

  /** SQL's truth values. */
  datatype Sql = True | False | Null

  function SqlOf(b: bool): Sql {
    if b then True else False
  }

  function And(a: Sql, b: Sql): Sql {
    if a.False? || b.False? then False else if a.Null? || b.Null? then Null else True
  }

  function Or(a: Sql, b: Sql): Sql {
    if a.True? || b.True? then True else if a.Null? || b.Null? then Null else False
  }

  /** visibleSQL for an owner, at the value of a level expression. */
  function VisibleSql(net: Net, viewer: Id, owner: Id, level: Level): Sql {
    var notBlocked := SqlOf(!(exists p <- net.blocks ::
                                (p.from == owner && p.to == viewer) || (p.from == viewer && p.to == owner)));
    var enabled := if owner in net.users then SqlOf(!net.users[owner].disabled) else Null;
    var accepted := SqlOf(exists p <- net.follows :: p.from == viewer && p.to == owner && net.follows[p] == Accepted);
    Or(SqlOf(owner == viewer),
       And(And(notBlocked, enabled),
           Or(SqlOf(level.Instance?), And(SqlOf(level.Followers?), accepted))))
  }

  /** The level expression of reviews and lists: CASE level WHEN 'inherit' THEN the owner's ELSE level END. */
  function LevelSql(level: Level, owner: Level): Level {
    if level.Inherit? then owner else level
  }

  /** The level of the users row, none when there is no such row. */
  function OwnerLevel(net: Net, owner: Id): Level {
    if owner in net.users then net.users[owner].level else Unset
  }

  /**
   * CanSee and the SQL predicate agree for every viewer, owner and level, except that CanSee alone
   * reads an empty level as inherited (no caller passes one).
   */
  lemma CanSeeIsVisibleSql(net: Net, viewer: Id, owner: Id, level: Level)
    ensures CanSee(net, viewer, owner, level) ==
            VisibleSql(net, viewer, owner, LevelSql(level, OwnerLevel(net, owner))).True? <==>
            !level.Unset? || viewer == owner || !CanSee(net, viewer, owner, Inherit)
  {
    hide Blocked, Follows;
    BlockedSql(net, viewer, owner);
    FollowsSql(net, viewer, owner);
  }

  lemma BlockedSql(net: Net, viewer: Id, owner: Id)
    ensures Blocked(net, viewer, owner) <==>
            exists p <- net.blocks :: (p.from == owner && p.to == viewer) || (p.from == viewer && p.to == owner)
  {
    if Pair(owner, viewer) in net.blocks {
      assert Pair(owner, viewer).from == owner;
    } else if Pair(viewer, owner) in net.blocks {
      assert Pair(viewer, owner).from == viewer;
    }
  }

  lemma FollowsSql(net: Net, viewer: Id, owner: Id)
    ensures Follows(net, viewer, owner) <==>
            exists p <- net.follows :: p.from == viewer && p.to == owner && net.follows[p] == Accepted
  {
    if Follows(net, viewer, owner) {
      assert Pair(viewer, owner) in net.follows;
    }
  }

  // ---- Invites -----------------------------------------------------------------

  /**
   * Creating an account with an invite uses it up and makes the two follow each other; a used one
   * creates nothing in invite mode.
   */
  lemma InviteUsed(net: Net, mode: Mode, id: Id, token: string, now: int)
    requires Inv(net) && CreateUser(net, mode, id, Some(token), now).r.Ok? && Inviter(net, mode, Some(token), now).Some?
    ensures var after := CreateUser(net, mode, id, Some(token), now).net;
            var inviter := net.invites[token].createdBy;
            && after.invites[token].usedBy == Some(id)
            && Follows(after, id, inviter) && Follows(after, inviter, id)
            && (forall later: int, other: Id, m: Mode ::
                  !m.Open? ==> CreateUser(after, m, other, Some(token), later).r == Err(SignupClosed))
  {
  }

  /** The link of this token is used by account id. */
  predicate UsedBy(net: Net, token: string, id: Id) {
    token in net.invites && net.invites[token].usedBy == Some(id)
  }

  /** A used invite stays used by the same account exactly until that account or the inviter's is deleted. */
  lemma InviteStaysUsed(net: Net, op: Op, token: string)
    requires Inv(net) && token in net.invites && net.invites[token].usedBy.Some?
    ensures var user, from := net.invites[token].usedBy.value, net.invites[token].createdBy;
            && (UsedBy(Apply(net, op), token, user) <==> op != DoDelete(user) && op != DoDelete(from))
            && (UsedBy(Apply(net, op), token, user) ==> Apply(net, op).invites[token].createdBy == from)
  {
    hide BlocksSever, NoneWait;
  }

  /** The step creates an account by the link of this token. */
  predicate Joins(net: Net, op: Op, token: string) {
    op.DoCreate? && op.token == Some(token)
    && CreateUser(net, op.mode, op.id, op.token, op.now).r.Ok? && Inviter(net, op.mode, op.token, op.now).Some?
  }

  /** Where sign-up is not open, an account made with a token is made by its link, unless it is the very first. */
  lemma JoinsWhenNotOpen(net: Net, op: Op, token: string)
    requires net.users != map[] && op.DoCreate? && op.token == Some(token) && !op.mode.Open?
    requires CreateUser(net, op.mode, op.id, op.token, op.now).r.Ok?
    ensures Joins(net, op, token)
  {
  }

  lemma {:induction false} StaysUser(net: Net, ops: seq<Op>, id: Id)
    requires id in net.users && DoDelete(id) !in ops
    ensures id in RunFrom(net, ops).users
  {
    hide Apply;
    if ops != [] {
      StaysUser(net, ops[..|ops| - 1], id);
      OnlyDeletionRemoves(RunFrom(net, ops[..|ops| - 1]), ops[|ops| - 1], id);
    }
  }

  lemma OnlyDeletionRemoves(net: Net, op: Op, id: Id)
    requires id in net.users && op != DoDelete(id)
    ensures id in Apply(net, op).users
  {
    hide Admins, OpenInvites, Blocked;
  }

  /** As long as neither account is deleted, a used link stays used. */
  lemma {:induction false} StaysUsed(net: Net, ops: seq<Op>, token: string)
    requires Inv(net) && token in net.invites && net.invites[token].usedBy.Some?
    requires forall op <- ops ::
               op != DoDelete(net.invites[token].usedBy.value) && op != DoDelete(net.invites[token].createdBy)
    ensures UsedBy(RunFrom(net, ops), token, net.invites[token].usedBy.value)
    ensures RunFrom(net, ops).invites[token].createdBy == net.invites[token].createdBy
  {
    hide Inv, Apply;
    if ops != [] {
      var before := ops[..|ops| - 1];
      assert forall op <- before :: op in ops;
      assert ops[|ops| - 1] in ops;
      StaysUsed(net, before, token);
      RunFromKeepsInv(net, before);
      InviteStaysUsed(RunFrom(net, before), ops[|ops| - 1], token);
    }
  }

  /**
   * After an account was made by a link, another one is made with the same token, by the link or
   * anyhow where sign-up is not open, only if the first account or the inviter's was deleted in between.
   */
  lemma LinkWorksOnce(net: Net, first: Op, between: seq<Op>, second: Op, token: string)
    requires Inv(net) && Joins(net, first, token)
    requires second.DoCreate? && second.token == Some(token)
    requires var later := RunFrom(Apply(net, first), between);
             && CreateUser(later, second.mode, second.id, second.token, second.now).r.Ok?
             && (second.mode.Open? ==> Joins(later, second, token))
    ensures DoDelete(first.id) in between || DoDelete(net.invites[token].createdBy) in between
  {
    hide RunFrom, KeysHold, BlocksSever, NoneWait;
    StepKeepsInv(net, first);
    var used := Apply(net, first);
    assert used.invites[token].usedBy == Some(first.id);
    assert used.invites[token].createdBy == net.invites[token].createdBy;
    assert first.id in used.users;
    hide Apply, Inv;
    if DoDelete(first.id) !in between && DoDelete(net.invites[token].createdBy) !in between {
      StaysUsed(used, between, token);
      StaysUser(used, between, first.id);
      hide CreateUser;
      if !second.mode.Open? { JoinsWhenNotOpen(RunFrom(used, between), second, token); }
      NotUsable(RunFrom(used, between), second, token);
    }
  }

  lemma NotUsable(net: Net, op: Op, token: string)
    requires token in net.invites && net.invites[token].usedBy.Some?
    ensures !Joins(net, op, token)
  {
  }

  /**
   * Once the account a link made is deleted, the link works again unless it ran out, was revoked or
   * its owner is disabled.
   */
  lemma DeletedAccountFreesLink(net: Net, token: string, now: int)
    requires Inv(net) && token in net.invites && net.invites[token].usedBy.Some?
    requires net.invites[token].usedBy != Some(net.invites[token].createdBy)
    ensures var i := net.invites[token];
            UsableInvite(DeleteUser(net, i.usedBy.value), Some(token), now).Some? <==>
            !i.revoked && now < i.expires && !net.users[i.createdBy].disabled
  {
    hide BlocksSever, NoneWait;
  }

  /** Deleting the account an invite made clears used_by, and used_at is not looked at: the link works again. */
  lemma DeletionReopensInvite()
    ensures var made := Run([DoCreate(InviteOnly, "ann", None, 0), DoInvite("ann", InviteOnly, "t", 0, 100)]);
            var used := Apply(made, DoCreate(InviteOnly, "bob", Some("t"), 1));
            var gone := Apply(used, DoDelete("bob"));
            && "t" in used.invites && used.invites["t"].usedBy == Some("bob")
            && CreateUser(used, InviteOnly, "eve", Some("t"), 2).r == Err(SignupClosed)
            && CreateUser(gone, InviteOnly, "eve", Some("t"), 2).r == Ok(())
  {
    var a := DoCreate(InviteOnly, "ann", None, 0);
    var b := DoInvite("ann", InviteOnly, "t", 0, 100);
    assert [a, b][..1] == [a] && [a][..0] == [];
    assert RunFrom(EMPTY, [a, b]) == Apply(RunFrom(EMPTY, [a]), b);
    var made := Run([a, b]);
    assert Run([a]) == Apply(EMPTY, a);
    assert made == Apply(Run([a]), b);
    var one := Apply(EMPTY, a);
    assert one.users == map["ann" := User(Private, false, true)];
    assert IsAdmin(one, "ann");
    assert made.users == map["ann" := User(Private, false, true)];
    assert made.invites == map["t" := Invite("ann", 100, None, false)];
    ReopenedBy(made);
  }

  lemma ReopenedBy(made: Net)
    requires made.users == map["ann" := User(Private, false, true)]
    requires made.invites == map["t" := Invite("ann", 100, None, false)]
    ensures var used := Apply(made, DoCreate(InviteOnly, "bob", Some("t"), 1));
            var gone := Apply(used, DoDelete("bob"));
            && "t" in used.invites && used.invites["t"].usedBy == Some("bob")
            && CreateUser(used, InviteOnly, "eve", Some("t"), 2).r == Err(SignupClosed)
            && CreateUser(gone, InviteOnly, "eve", Some("t"), 2).r == Ok(())
  {
    var used := Apply(made, DoCreate(InviteOnly, "bob", Some("t"), 1));
    assert "ann" in used.users && used.invites["t"] == Invite("ann", 100, Some("bob"), false);
    var gone := Apply(used, DoDelete("bob"));
    assert "ann" in gone.users && "eve" !in gone.users && gone.invites["t"] == Invite("ann", 100, None, false);
  }

  // ---- The last admin ----------------------------------------------------------

  /** Only deleting an account can leave an instance without an enabled admin. */
  lemma AnAdminRemains(net: Net, op: Op)
    requires Admins(net) != {} && !op.DoDelete?
    ensures Admins(Apply(net, op)) != {}
  {
    var x :| x in Admins(net);
    if op.DoEdit? && op.id == x && EditUser(net, op.id, op.admin, op.disabled).r.Ok? && x !in Admins(Apply(net, op)) {
      assert |Admins(net)| > 1;
      assert Admins(net) != {x};
      var y :| y in Admins(net) && y != x;
      assert y in Admins(Apply(net, op));
    } else {
      assert x in Admins(Apply(net, op));
    }
  }

  // ---- What each operation does ------------------------------------------------

  /** a has blocked b or b has blocked a. */
  ghost predicate Severed(net: Net, a: Id, b: Id) {
    Pair(a, b) in net.blocks || Pair(b, a) in net.blocks
  }

  /** a's request to b was accepted. */
  ghost predicate IsFollower(net: Net, a: Id, b: Id) {
    Pair(a, b) in net.follows && net.follows[Pair(a, b)] == Accepted
  }

  /** b, tables for tables, is a but for its follows. */
  ghost predicate OnlyFollows(a: Net, b: Net) {
    b.users == a.users && b.blocks == a.blocks && b.invites == a.invites
  }

  /**
   * Following oneself, nobody, or across a block is refused; else a follow starts, accepted where the
   * other is open.
   */
  lemma FollowDoes(net: Net, viewer: Id, target: Id)
    requires viewer in net.users
    ensures var f := Follow(net, viewer, target);
            var p := Pair(viewer, target);
            && (viewer == target ==> f.r == Err(Invalid))
            && (viewer != target && (target !in net.users || net.users[target].disabled) ==> f.r == Err(NotFound))
            && (viewer != target && target in net.users && !net.users[target].disabled
                && Severed(net, viewer, target) ==>
                  f.r == Err(IsBlocked))
            && (f.r.Err? <==> viewer == target || target !in net.users || net.users[target].disabled
                              || Severed(net, viewer, target))
            && (f.r.Err? ==> f.net == net)
            && (f.r.Ok? ==>
                  && OnlyFollows(net, f.net) && p in f.net.follows && f.r == Ok(f.net.follows[p])
                  && f.net.follows[p] == (if p in net.follows then net.follows[p]
                                          else if net.users[target].level == Instance then Accepted else Pending)
                  && f.net.follows == net.follows[p := f.net.follows[p]])
  {
  }

  /** Unfollowing ends that follow or request and no other, and what only followers see is hidden again. */
  lemma UnfollowDoes(net: Net, viewer: Id, target: Id)
    ensures var after := Unfollow(net, viewer, target);
            && OnlyFollows(net, after) && Pair(viewer, target) !in after.follows
            && (forall p | p != Pair(viewer, target) ::
                  (p in after.follows <==> p in net.follows)
                  && (p in net.follows ==> after.follows[p] == net.follows[p]))
            && (viewer != target ==> !CanSee(after, viewer, target, Followers))
  {
  }

  /** Accepting turns a waiting request, and nothing else, into a follow. */
  lemma AcceptDoes(net: Net, viewer: Id, requester: Id)
    ensures var a := Accept(net, viewer, requester);
            var p := Pair(requester, viewer);
            && (a.r.Ok? <==> p in net.follows && net.follows[p] == Pending)
            && (a.r.Err? ==> a == Reply(net, Err(NotFound)))
            && (a.r.Ok? ==> a.net == net.(follows := net.follows[p := Accepted]))
  {
  }

  /** Blocking adds the block and ends follows and requests both ways; nothing is to be seen across it. */
  lemma BlockDoes(net: Net, viewer: Id, target: Id)
    requires viewer in net.users && target in net.users
    ensures var b := Block(net, viewer, target);
            && (viewer == target <==> b.r == Err(Invalid)) && (b.r.Err? ==> b.net == net)
            && (b.r.Ok? ==>
                  && b.net.users == net.users && b.net.invites == net.invites
                  && b.net.blocks == net.blocks + {Pair(viewer, target)}
                  && Pair(viewer, target) !in b.net.follows && Pair(target, viewer) !in b.net.follows
                  && (forall p | p != Pair(viewer, target) && p != Pair(target, viewer) ::
                        (p in b.net.follows <==> p in net.follows)
                        && (p in net.follows ==> b.net.follows[p] == net.follows[p]))
                  && forall level :: !CanSee(b.net, viewer, target, level) && !CanSee(b.net, target, viewer, level))
  {
  }

  /** Unblocking ends the viewer's own block and no other; an open account is seen again unless it blocks too. */
  lemma UnblockDoes(net: Net, viewer: Id, target: Id)
    ensures var after := Unblock(net, viewer, target);
            && after == net.(blocks := after.blocks) && Pair(viewer, target) !in after.blocks
            && (forall p | p != Pair(viewer, target) :: p in after.blocks <==> p in net.blocks)
            && (viewer != target && target in net.users && !net.users[target].disabled ==>
                  (CanSee(after, viewer, target, Instance) <==> Pair(target, viewer) !in net.blocks))
  {
  }

  /**
   * Choosing who sees the profile: private shows it to nobody else, followers to accepted followers,
   * instance to everyone not blocked and settles the waiting requests.
   */
  lemma VisibilityDoes(net: Net, id: Id, level: Level, viewer: Id)
    ensures var v := SetVisibility(net, id, level);
            && (level == Inherit || level == Unset ==> v == Reply(net, Err(Invalid)))
            && (id !in net.users && level != Inherit && level != Unset ==> v == Reply(net, Err(NotFound)))
            && (v.r.Ok? ==>
                  && id in net.users && v.net.blocks == net.blocks && v.net.invites == net.invites
                  && v.net.users == net.users[id := net.users[id].(level := level)]
                  && (level != Instance ==> v.net.follows == net.follows)
                  && (level == Instance ==>
                        && v.net.follows.Keys == net.follows.Keys
                        && forall p | p in net.follows ::
                             v.net.follows[p] == if p.to == id then Accepted else net.follows[p])
                  && (viewer != id && !net.users[id].disabled ==>
                        (CanSee(v.net, viewer, id, Inherit) <==>
                           && level != Private && !Severed(net, viewer, id)
                           && (level == Followers ==> IsFollower(net, viewer, id)))))
  {
  }

  /** An item shows to others what its level says, or its owner's where it inherits. */
  lemma SeesWhat(net: Net, viewer: Id, owner: Id, level: Level)
    requires owner in net.users && !level.Unset?
    ensures var shown := if level == Inherit then net.users[owner].level else level;
            CanSee(net, viewer, owner, level) <==>
            || viewer == owner
            || (&& !net.users[owner].disabled && !Severed(net, viewer, owner)
                && (shown == Instance || (shown == Followers && IsFollower(net, viewer, owner))))
  {
  }

  // ---- Accounts and invites ----------------------------------------------------

  ghost predicate SomeAdmin(users: map<Id, User>) {
    exists x <- users :: users[x].admin && !users[x].disabled
  }

  /**
   * Editing an account sets what was asked; it is refused exactly when it would leave no enabled admin
   * where there was one.
   */
  lemma EditUserDoes(net: Net, id: Id, admin: Option<bool>, disabled: Option<bool>)
    ensures var e := EditUser(net, id, admin, disabled);
            var wanted := if id in net.users
                          then User(net.users[id].level,
                                    if disabled.Some? then disabled.value else net.users[id].disabled,
                                    if admin.Some? then admin.value else net.users[id].admin)
                          else User(Private, false, false);
            && (id !in net.users ==> e == Reply(net, Err(NotFound)))
            && (id in net.users ==>
                  && (e.r == Err(LastAdmin) <==> SomeAdmin(net.users) && !SomeAdmin(net.users[id := wanted]))
                  && (e.r.Err? ==> e == Reply(net, Err(LastAdmin)))
                  && (e.r.Ok? ==> e.net == net.(users := net.users[id := wanted])))
  {
    if id in net.users {
      var u := net.users[id];
      var later := net.users[id := User(u.level, if disabled.Some? then disabled.value else u.disabled,
                                        if admin.Some? then admin.value else u.admin)];
      assert later[id].admin && !later[id].disabled ==> SomeAdmin(later);
      if x: Id :| x != id && IsAdmin(net, x) {
        assert x in later && later[x].admin && !later[x].disabled;
        if IsAdmin(net, id) {
          assert id in Admins(net) && x in Admins(net);
          assert |{id, x}| == 2;
          assert {id, x} <= Admins(net);
          SubsetSize({id, x}, Admins(net));
        }
      } else {
        assert Admins(net) <= {id};
        SubsetSize(Admins(net), {id});
        forall x <- net.users
          ensures x == id || !(net.users[x].admin && !net.users[x].disabled)
        {
          assert x == id || !IsAdmin(net, x);
        }
      }
    }
  }

  lemma {:induction false} SubsetSize(a: set<Id>, b: set<Id>)
    requires a <= b
    ensures |a| <= |b|
  {
    assert b == a + (b - a);
  }

  /** The link of this token can be used now: not used, not revoked, not run out, and by an enabled account. */
  ghost predicate LinkOpen(net: Net, token: Option<string>, now: int) {
    token.Some? && token.value in net.invites &&
    var i := net.invites[token.value];
    && i.usedBy == None && !i.revoked && now < i.expires && i.createdBy in net.users && !net.users[i.createdBy].disabled
  }

  /** The link lets somebody in: in closed mode only an admin's does. */
  ghost predicate LinkAdmits(net: Net, mode: Mode, token: Option<string>, now: int) {
    LinkOpen(net, token, now) && (mode == Closed ==> net.users[net.invites[token.value].createdBy].admin)
  }

  /**
   * An account is made when sign-up is open, when it is the first, or by a link that admits; the first
   * is an admin, all start private; the link is used up and the two follow each other.
   */
  lemma CreateUserDoes(net: Net, mode: Mode, id: Id, token: Option<string>, now: int)
    ensures var c := CreateUser(net, mode, id, token, now);
            var admitted := LinkAdmits(net, mode, token, now);
            && (c.r == Err(SignupClosed) <==> net.users != map[] && mode != Open && !admitted)
            && (c.r == Err(Constraint) <==> c.r != Err(SignupClosed) && id in net.users)
            && (c.r.Err? ==> c.net == net)
            && (c.r.Ok? ==>
                  && c.net.users == net.users[id := User(Private, false, net.users == map[])]
                  && c.net.blocks == net.blocks
                  && (!admitted ==> c.net.follows == net.follows && c.net.invites == net.invites)
                  && (admitted ==>
                        var from := net.invites[token.value].createdBy;
                        && c.net.invites == net.invites[token.value := net.invites[token.value].(usedBy := Some(id))]
                        && c.net.follows == net.follows[Pair(id, from) := Accepted][Pair(from, id) := Accepted]))
  {
  }

  /** A link is made by an account that may invite, for as long as asked; all but admins have at most ten open ones. */
  lemma CreateInviteDoes(net: Net, id: Id, mode: Mode, token: string, now: int, ttl: nat)
    requires id in net.users
    ensures var c := CreateInvite(net, id, mode, token, now, ttl);
            var admin := net.users[id].admin && !net.users[id].disabled;
            var mine := set t | t in net.invites && net.invites[t].createdBy == id && net.invites[t].usedBy == None
                                && !net.invites[t].revoked && now < net.invites[t].expires;
            && (c.r == Err(SignupClosed) <==> mode == Closed && !admin)
            && (c.r == Err(TooMany) <==> c.r != Err(SignupClosed) && !admin && |mine| >= 10)
            && (c.r.Err? ==> c.net == net)
            && (c.r.Ok? <==> c.r != Err(SignupClosed) && c.r != Err(TooMany) && token !in net.invites)
            && (c.r.Ok? ==> c.net == net.(invites := net.invites[token := Invite(id, now + ttl, None, false)]))
  {
    assert OpenInvites(net, id, now) == set t | t in net.invites && net.invites[t].createdBy == id
                                                 && net.invites[t].usedBy == None && !net.invites[t].revoked
                                                 && now < net.invites[t].expires;
  }

  /** A link not used yet is revoked by its maker or an admin, and opens nothing any more. */
  lemma RevokeInviteDoes(net: Net, id: Id, token: string, mode: Mode, now: int)
    ensures var v := RevokeInvite(net, id, token);
            && (v.r.Ok? <==>
                  && token in net.invites && net.invites[token].usedBy == None
                  && (net.invites[token].createdBy == id
                      || (id in net.users && net.users[id].admin && !net.users[id].disabled)))
            && (v.r.Err? ==> v == Reply(net, Err(NotFound)))
            && (v.r.Ok? ==>
                  && v.net == net.(invites := net.invites[token := net.invites[token].(revoked := true)])
                  && !LinkAdmits(v.net, mode, Some(token), now))
  {
  }

  /** Deleting an account takes its follows, blocks and links with it, and frees the links it was made by. */
  lemma DeleteUserDoes(net: Net, id: Id)
    ensures var after := DeleteUser(net, id);
            && after.users == net.users - {id}
            && (forall p :: p in after.follows <==> p in net.follows && p.from != id && p.to != id)
            && (forall p | p in after.follows :: after.follows[p] == net.follows[p])
            && (forall p :: p in after.blocks <==> p in net.blocks && p.from != id && p.to != id)
            && (forall t :: t in after.invites <==> t in net.invites && net.invites[t].createdBy != id)
            && (forall t | t in after.invites ::
                  after.invites[t] == net.invites[t].(usedBy := if net.invites[t].usedBy == Some(id) then None
                                                                else net.invites[t].usedBy))
  {
  }
}
