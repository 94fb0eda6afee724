/**
 Following continuation tokens: the marker lookup and the permission listing read every page or fail within
 a fixed number of calls, and the writer permission is ensured on the complete list.
 */
module Paging {
  import opened Text

  /** The reply to one list call: a valid page, or an error or malformed payload. */
  datatype Reply<T> = Page(items: seq<T>, next: Option<string>) | Unusable

  /** Any server: what it answers may depend on how often it was called and on the token. */
  type Server<!T> = (nat, Option<string>) -> Reply<T>

  const MAX_PAGES := 50

  /** The token of call number `k` when every reply is followed. */
  function TokenAt<T>(server: Server<T>, k: nat): Option<string> {
    if k == 0 then None
    else
      var before := server(k - 1, TokenAt(server, k - 1));
      if before.Page? then before.next else None
  }

  function ReplyAt<T>(server: Server<T>, k: nat): Reply<T> {
    server(k, TokenAt(server, k))
  }

  function NextAt<T>(server: Server<T>, k: nat): Option<string> {
    if ReplyAt(server, k).Page? then ReplyAt(server, k).next else None
  }

  /** Call number `k` got a page that names a token no earlier page named. */
  ghost predicate Continues<T>(server: Server<T>, k: nat) {
    && NextAt(server, k).Some?
    && forall j :: 0 <= j < k ==> NextAt(server, j) != NextAt(server, k)
  }

  /** The first `n` calls read the whole listing. */
  ghost predicate Reads<T>(server: Server<T>, n: nat) {
    && n >= 1 && (forall k :: 0 <= k < n - 1 ==> Continues(server, k))
    && ReplyAt(server, n - 1).Page? && ReplyAt(server, n - 1).next.None?
  }

  /** The items of the first `n` pages in order. */
  function Items<T>(server: Server<T>, n: nat): seq<T> {
    if n == 0 then [] else Items(server, n - 1) + if ReplyAt(server, n - 1).Page? then ReplyAt(server, n - 1).items else []
  }

  /**
   Whatever the server does, the listing stops within the page limit, and it returns exactly when following
   the tokens reads a whole listing within the limit, with the items of all its pages in order.
   */
  method ListAll<T>(server: Server<T>) returns (all: Option<seq<T>>, calls: nat)
    ensures calls <= MAX_PAGES
    ensures all.Some? <==> exists n :: 1 <= n <= MAX_PAGES && Reads(server, n)
    ensures all.Some? ==> Reads(server, calls) && all.value == Items(server, calls)
  {
    var items: seq<T> := [];
    var seen: set<string> := {};
    var token: Option<string> := None;
    calls := 0;
    while calls < MAX_PAGES
      invariant calls <= MAX_PAGES && token == TokenAt(server, calls) && items == Items(server, calls)
      invariant forall k :: 0 <= k < calls ==> Continues(server, k)
      invariant forall t :: t in seen <==> exists k :: 0 <= k < calls && NextAt(server, k) == Some(t)
    {
      var reply := server(calls, token);
      assert reply == ReplyAt(server, calls);
      calls := calls + 1;
      if reply.Unusable? {
        NothingRead(server, calls - 1);
        return None, calls;
      }
      items := items + reply.items;
      if reply.next.None? {
        assert Reads(server, calls);
        return Some(items), calls;
      }
      assert NextAt(server, calls - 1) == reply.next;
      if reply.next.value in seen {
        ghost var k :| 0 <= k < calls - 1 && NextAt(server, k) == reply.next;
        NothingRead(server, calls - 1);
        return None, calls;
      }
      seen := seen + {reply.next.value};
      token := reply.next;
      assert TokenAt(server, calls) == token;
    }
    forall n | 1 <= n <= MAX_PAGES
      ensures !Reads(server, n)
    {
      assert Continues(server, n - 1);
    }
    return None, calls;
  }

  /** Where a listing breaks off, no listing is read. */
  lemma NothingRead<T>(server: Server<T>, k: nat)
    requires forall j :: 0 <= j < k ==> Continues(server, j)
    requires !Continues(server, k) && !(ReplyAt(server, k).Page? && ReplyAt(server, k).next.None?)
    ensures forall n :: 1 <= n ==> !Reads(server, n)
  {
    forall n | 1 <= n
      ensures !Reads(server, n)
    {
      if n <= k {
        assert Continues(server, n - 1);
      }
    }
  }

  // ---- An honest server ----

  /** A listing cut into pages, each but the last naming the token of the next. */
  datatype Listing<T> = Listing(pages: seq<seq<T>>, tokens: seq<string>)

  ghost predicate WellCut<T>(l: Listing<T>) {
    && |l.pages| == |l.tokens| + 1
    && forall i, j :: 0 <= i < j < |l.tokens| ==> l.tokens[i] != l.tokens[j]
  }

  /** The server answers the first call with the first page and each token with the page it names. */
  ghost predicate Honest<T>(server: Server<T>, l: Listing<T>)
    requires WellCut(l)
  {
    && (forall k :: server(k, None) == Page(l.pages[0], NextToken(l, 0)))
    && (forall k, i :: 0 <= i < |l.tokens| ==> server(k, Some(l.tokens[i])) == Page(l.pages[i + 1], NextToken(l, i + 1)))
  }

  function NextToken<T>(l: Listing<T>, page: nat): Option<string> {
    if page < |l.tokens| then Some(l.tokens[page]) else None
  }

  function Flatten<T>(pages: seq<seq<T>>): seq<T> {
    if pages == [] then [] else Flatten(pages[..|pages| - 1]) + pages[|pages| - 1]
  }

  lemma {:induction false} HonestReplies<T>(server: Server<T>, l: Listing<T>, k: nat)
    requires WellCut(l) && Honest(server, l) && k < |l.pages|
    ensures ReplyAt(server, k) == Page(l.pages[k], NextToken(l, k))
    ensures Items(server, k + 1) == Flatten(l.pages[..k + 1])
    ensures forall j :: 0 <= j < k ==> Continues(server, j)
  {
    assert l.pages[..k + 1][..k] == l.pages[..k];
    if k > 0 {
      HonestReplies(server, l, k - 1);
      forall j | 0 <= j < k
        ensures NextAt(server, j) == Some(l.tokens[j])
      {
        HonestReplies(server, l, j);
      }
      assert TokenAt(server, k) == Some(l.tokens[k - 1]);
      assert Continues(server, k - 1);
    } else {
      assert Items(server, 1) == Items(server, 0) + l.pages[0];
      assert Flatten(l.pages[..1]) == Flatten([]) + l.pages[0];
    }
  }

  lemma ReadsFurther<T>(server: Server<T>, n: nat, k: nat)
    requires Reads(server, n) && k < n - 1
    ensures NextAt(server, k).Some?
  {
    assert Continues(server, k);
  }

  /** Only one number of calls reads the listing. */
  lemma ReadsOnce<T>(server: Server<T>, m: nat, n: nat)
    requires Reads(server, m) && Reads(server, n)
    ensures m == n
  {
    if m < n {
      ReadsFurther(server, n, m - 1);
    } else if n < m {
      ReadsFurther(server, m, n - 1);
    }
  }

  /** The listing is followed for fifty calls and no more. */
  lemma PageLimit<T>(server: Server<T>, n: nat)
    ensures 1 <= n <= 50 && Reads(server, n) <==> 1 <= n <= MAX_PAGES && Reads(server, n)
  {
  }

  /** From an honest server a listing of up to fifty pages comes back whole: no page is lost, repeated or reordered. */
  lemma HonestListing<T>(server: Server<T>, l: Listing<T>, n: nat)
    requires WellCut(l) && Honest(server, l)
    ensures Reads(server, |l.pages|) && Items(server, |l.pages|) == Flatten(l.pages)
    ensures Reads(server, n) ==> Items(server, n) == Flatten(l.pages)
  {
    HonestReplies(server, l, |l.pages| - 1);
    assert l.pages[..|l.pages|] == l.pages;
    if Reads(server, n) {
      ReadsOnce(server, n, |l.pages|);
    }
  }

  // ---- The writer permission ----

  datatype Permission = Permission(id: string, kind: string, role: string, email: Option<string>)

  datatype WriterPlan = Reuse | Upgrade(permissionId: string) | Create

  datatype Outcome = Reused | Upgraded | Created | ListingFailed | ChangeFailed

  /** How the update or create is answered; one that fails may still have been applied. */
  datatype ChangeReply = Answered | Unanswered(applied: bool)

  predicate IsUserOf(p: Permission, email: string) {
    p.kind == "user" && p.email == Some(email)
  }

  predicate CanWrite(p: Permission) {
    p.role == "writer" || p.role == "owner"
  }

  /** The first user permission of the account decides. */
  function PlanSaWriterAction(permissions: seq<Permission>, email: string): WriterPlan {
    if permissions == [] then Create
    else if IsUserOf(permissions[0], email) then if CanWrite(permissions[0]) then Reuse else Upgrade(permissions[0].id)
    else PlanSaWriterAction(permissions[1..], email)
  }

  /** A file has one permission per id and one user permission per account. */
  ghost predicate ProperPermissions(permissions: seq<Permission>) {
    && (forall i, j :: 0 <= i < j < |permissions| ==> permissions[i].id != permissions[j].id)
    && (forall i, j, e :: 0 <= i < j < |permissions| && IsUserOf(permissions[i], e) ==> !IsUserOf(permissions[j], e))
  }

  ghost predicate MayWrite(permissions: seq<Permission>, email: string) {
    exists p :: p in permissions && IsUserOf(p, email) && CanWrite(p)
  }

  lemma {:induction false} PlanMeaning(permissions: seq<Permission>, email: string)
    requires ProperPermissions(permissions)
    ensures match PlanSaWriterAction(permissions, email)
            case Reuse => MayWrite(permissions, email)
            case Upgrade(id) => !MayWrite(permissions, email) && exists p :: p in permissions && p.id == id && IsUserOf(p, email)
            case Create => !MayWrite(permissions, email) && forall p :: p in permissions ==> !IsUserOf(p, email)
    ensures MayWrite(permissions, email) <==>
              exists p :: p in permissions && p.kind == "user" && p.email == Some(email) && p.role in ["writer", "owner"]
  {
    assert forall p :: p in permissions ==> (CanWrite(p) <==> p.role in ["writer", "owner"]);
    if permissions != [] {
      if IsUserOf(permissions[0], email) {
        assert permissions[0] in permissions;
      } else {
        PlanMeaning(permissions[1..], email);
        assert forall p :: p in permissions ==> p == permissions[0] || p in permissions[1..];
      }
    }
  }

  /** The permission with this id became a writer and nothing else changed. */
  ghost predicate RoleRaised(before: seq<Permission>, after: seq<Permission>, id: string) {
    && |after| == |before|
    && forall i :: 0 <= i < |after| ==> after[i] == if before[i].id == id then before[i].(role := "writer") else before[i]
  }

  /** Every permission of another identity is still there as it was. */
  ghost predicate OthersKept(before: seq<Permission>, after: seq<Permission>, email: string) {
    forall p :: p in before && !IsUserOf(p, email) ==> p in after
  }

  lemma NothingChanged(permissions: seq<Permission>, email: string)
    ensures OthersKept(permissions, permissions, email)
  {
  }

  lemma PageCount<T>(l: Listing<T>)
    requires WellCut(l)
    ensures |l.pages| >= 1
  {
  }

  lemma RaisedMayWrite(before: seq<Permission>, after: seq<Permission>, id: string, email: string)
    requires RoleRaised(before, after, id) && ProperPermissions(before)
    requires exists p :: p in before && p.id == id && IsUserOf(p, email)
    ensures MayWrite(after, email) && OthersKept(before, after, email)
  {
    var i :| 0 <= i < |before| && before[i].id == id && IsUserOf(before[i], email);
    assert after[i] in after && IsUserOf(after[i], email) && CanWrite(after[i]);
    forall p | p in before && !IsUserOf(p, email)
      ensures p in after
    {
      var j :| 0 <= j < |before| && before[j] == p;
      assert after[j] == p;
    }
  }

  lemma AddedMayWrite(before: seq<Permission>, id: string, email: string)
    ensures var after := before + [Permission(id, "user", "writer", Some(email))];
            MayWrite(after, email) && OthersKept(before, after, email)
  {
    var after := before + [Permission(id, "user", "writer", Some(email))];
    assert after[|before|] in after;
  }

  class SharedFile {
    var permissions: seq<Permission>

    constructor (permissions: seq<Permission>)
      ensures this.permissions == permissions
    {
      this.permissions := permissions;
    }

    method Update(id: string)
      modifies this
      ensures RoleRaised(old(permissions), permissions, id)
    {
      permissions := seq(|permissions|, i requires 0 <= i < |permissions| reads this =>
        if permissions[i].id == id then permissions[i].(role := "writer") else permissions[i]);
    }

    /**
     Ensures the writer permission after reading the whole listing: afterwards the account can write, the
     outcome tells whether this call made it so, and no other permission changes. A change that fails is
     reported as failed, whether it was applied or not.
     */
    method EnsureSaWriter(server: Server<Permission>, listing: Listing<Permission>, email: string, newId: string, reply: ChangeReply)
        returns (outcome: Outcome)
      requires WellCut(listing) && Honest(server, listing) && Flatten(listing.pages) == permissions && ProperPermissions(permissions)
      modifies this
      ensures outcome == ListingFailed <==> |listing.pages| > MAX_PAGES
      ensures outcome == ListingFailed ==> permissions == old(permissions)
      ensures outcome == ChangeFailed <==> |listing.pages| <= MAX_PAGES && reply.Unanswered? && !old(MayWrite(permissions, email))
      ensures outcome == ChangeFailed ==> if reply.applied then MayWrite(permissions, email) else permissions == old(permissions)
      ensures outcome != ListingFailed && outcome != ChangeFailed ==> MayWrite(permissions, email)
      ensures outcome == Reused ==> permissions == old(permissions) && old(MayWrite(permissions, email))
      ensures outcome == Upgraded || outcome == Created ==> !old(MayWrite(permissions, email))
      ensures OthersKept(old(permissions), permissions, email)
      ensures outcome == Upgraded ==> exists p :: p in old(permissions) && IsUserOf(p, email) && RoleRaised(old(permissions), permissions, p.id)
      ensures outcome == Created ==>
                permissions == old(permissions) + [Permission(newId, "user", "writer", Some(email))]
                && forall p :: p in old(permissions) ==> !IsUserOf(p, email)
    {
      hide MayWrite, ProperPermissions, OthersKept, RoleRaised, Honest, WellCut;
      NothingChanged(permissions, email);
      var all, calls := ListAll(server);
      HonestListing(server, listing, calls);
      if all.None? {
        PageCount(listing);
        return ListingFailed;
      }
      PageCount(listing);
      ReadsOnce(server, calls, |listing.pages|);
      PlanMeaning(permissions, email);
      match PlanSaWriterAction(all.value, email) {
        case Reuse => return Reused;
        case Upgrade(id) =>
          if reply == Unanswered(false) { return ChangeFailed; }
          ghost var before := permissions;
          Update(id);
          RaisedMayWrite(before, permissions, id, email);
          return if reply.Answered? then Upgraded else ChangeFailed;
        case Create =>
          if reply == Unanswered(false) { return ChangeFailed; }
          AddedMayWrite(permissions, newId, email);
          permissions := permissions + [Permission(newId, "user", "writer", Some(email))];
          return if reply.Answered? then Created else ChangeFailed;
      }
    }
  }
}
