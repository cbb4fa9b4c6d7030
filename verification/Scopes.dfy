/**
 Named contexts as scopes: what the innermost context in force holds decides, whatever the
 contexts around it hold, and what it does not hold is looked for outside it.
 */
module Scopes {
  import opened Basics
  import opened RouteResults
  import opened RequestBodies
  import opened Chains
  import opened EndpointTheorems

  // ----- looking an entry up

  /** The `i`-th context holds the entry, and no context pushed after it does. */
  ghost predicate InnermostAt<T>(contexts: seq<Context>, get: Context -> Option<T>, i: nat) {
    i < |contexts| && get(contexts[i]).Some? && forall j :: i < j < |contexts| ==> get(contexts[j]).None?
  }

  lemma {:induction false} LookupIsInnermost<T>(contexts: seq<Context>, get: Context -> Option<T>)
    ensures Lookup(contexts, get).None? <==> forall c <- contexts :: get(c).None?
    ensures forall i: nat :: InnermostAt(contexts, get, i) ==> Lookup(contexts, get) == get(contexts[i])
  {
    if contexts != [] {
      var outer, top := contexts[..|contexts| - 1], contexts[|contexts| - 1];
      LookupIsInnermost(outer, get);
      assert contexts == outer + [top];
      forall i: nat | InnermostAt(contexts, get, i) ensures Lookup(contexts, get) == get(contexts[i]) {
        if i < |outer| {
          assert outer[i] == contexts[i];
          assert InnermostAt(outer, get, i);
        }
      }
    }
  }

  /** Each kind of entry, in the context that was pushed last and in the ones below it. */
  lemma {:induction false} TopThenOuter(outer: seq<Context>, top: Context, ty: Ty, name: nat)
    ensures FindBasic(outer + [top], ty) == if ty in top.basic then Some(top.basic[ty]) else FindBasic(outer, ty)
    ensures FindAuth(outer + [top], ty) == if ty in top.auth then Some(top.auth[ty]) else FindAuth(outer, ty)
    ensures FindResource(outer + [top], ty)
         == if ty in top.resources then Some(top.resources[ty]) else FindResource(outer, ty)
    ensures FindNamed(outer + [top], name)
         == if name in top.named then Some(top.named[name]) else FindNamed(outer, name)
  {
    assert (outer + [top])[..|outer|] == outer && (outer + [top])[|outer|] == top;
  }

  lemma {:induction false} NothingWithoutContexts(ty: Ty, name: nat)
    ensures FindBasic([], ty) == None && FindAuth([], ty) == None
    ensures FindResource([], ty) == None && FindNamed([], name) == None
  {}

  // ----- the checks before the body

  lemma {:induction false} Unpushed(st: State, named: Context)
    ensures Popped(st.contexts + [named]) == st.contexts
  {}

  /**
   A basic check under a named context that holds one for its type: that check alone decides,
   whatever the outer contexts hold. It is run on the request's credentials; when it refuses
   them or there are none the request fails with a 401, and otherwise exactly its user is
   queued and the walk goes on under the same named context.
   */
  lemma {:induction false} NamedBasicDecides(name: nat, named: Context, ty: Ty, realm: Text, next: Chain,
        req: Request, st: State)
    requires FindNamed(st.contexts, name) == Some(named) && ty in named.basic
    ensures var walk := PreBody(NamedContext(name, BasicAuth(ty, realm, next)), req, st);
      var logged := st.(checks := st.checks + [Site(true, ty)]);
      walk ==
        if req.authorization.None? then (FailFatal(ServerError(401, Realm(realm))), st)
        else if named.basic[ty](req.authorization.value).None? then (FailFatal(ServerError(401, Realm(realm))), logged)
        else
          var user := User(ty, named.basic[ty](req.authorization.value).value);
          PreBody(NamedContext(name, next), req, logged.(prechecked := st.prechecked + [user]))
  {
    TopThenOuter(st.contexts, named, ty, name);
    Unpushed(st, named);
  }

  /** The same of a custom check, whose own error is the one the request fails with. */
  lemma {:induction false} NamedAuthDecides(name: nat, named: Context, ty: Ty, next: Chain, req: Request, st: State)
    requires FindNamed(st.contexts, name) == Some(named) && ty in named.auth
    ensures var walk := PreBody(NamedContext(name, AuthProtect(ty, next)), req, st);
      var logged := st.(checks := st.checks + [Site(false, ty)]);
      var verdict := named.auth[ty](req.headers);
      walk ==
        if verdict.Err? then (FailFatal(verdict.error), logged)
        else PreBody(NamedContext(name, next), req, logged.(prechecked := st.prechecked + [User(ty, verdict.value)]))
  {
    TopThenOuter(st.contexts, named, ty, name);
    Unpushed(st, named);
  }

  /**
   Where the named context holds no check for the type, the combinator does what it does
   outside it: the two change places. So it does when no context has that name.
   */
  lemma {:induction false} SilentContextBasic(name: nat, ty: Ty, realm: Text, next: Chain, req: Request, st: State)
    requires FindNamed(st.contexts, name).Some? ==> ty !in FindNamed(st.contexts, name).value.basic
    ensures PreBody(NamedContext(name, BasicAuth(ty, realm, next)), req, st)
         == PreBody(BasicAuth(ty, realm, NamedContext(name, next)), req, st)
  {
    var named := FindNamed(st.contexts, name);
    if named.Some? {
      TopThenOuter(st.contexts, named.value, ty, name);
      Unpushed(st, named.value);
    }
  }

  lemma {:induction false} SilentContextAuth(name: nat, ty: Ty, next: Chain, req: Request, st: State)
    requires FindNamed(st.contexts, name).Some? ==> ty !in FindNamed(st.contexts, name).value.auth
    ensures PreBody(NamedContext(name, AuthProtect(ty, next)), req, st)
         == PreBody(AuthProtect(ty, NamedContext(name, next)), req, st)
  {
    var named := FindNamed(st.contexts, name);
    if named.Some? {
      TopThenOuter(st.contexts, named.value, ty, name);
      Unpushed(st, named.value);
    }
  }

  /** A check that no context in force holds is a fatal 500. */
  lemma {:induction false} UnconfiguredIsFatal(check: Chain, req: Request, st: State)
    requires check.BasicAuth? || check.AuthProtect?
    requires forall c <- st.contexts :: check.user !in (if check.BasicAuth? then c.basic.Keys else c.auth.Keys)
    ensures PreBody(check, req, st) == (FailFatal(ServerError(500, NotConfigured)), st)
  {
    if check.BasicAuth? {
      LookupIsInnermost(st.contexts, (c: Context) => if check.user in c.basic then Some(c.basic[check.user]) else None);
    } else {
      LookupIsInnermost(st.contexts, (c: Context) => if check.user in c.auth then Some(c.auth[check.user]) else None);
    }
  }

  // ----- extraction

  /** A resource under a named context that holds one of its type is that one, whatever the outer contexts hold. */
  lemma {:induction false} NamedResourceDecides(name: nat, named: Context, ty: Ty, next: Chain, req: Request, st: State,
        slot: BodySlot)
    requires FindNamed(st.contexts, name) == Some(named) && ty in named.resources
    ensures Extract(NamedContext(name, WithResource(ty, next)), req, st, slot)
         == Cons(Strict(named.resources[ty]), Extract(NamedContext(name, next), req, st, slot))
  {
    TopThenOuter(st.contexts, named, ty, name);
  }

  /** Where the named context holds none, the combinator takes what it takes outside it. */
  lemma {:induction false} SilentContextResource(name: nat, ty: Ty, next: Chain, req: Request, st: State,
        slot: BodySlot)
    requires FindNamed(st.contexts, name).Some? ==> ty !in FindNamed(st.contexts, name).value.resources
    ensures Extract(NamedContext(name, WithResource(ty, next)), req, st, slot)
         == Extract(WithResource(ty, NamedContext(name, next)), req, st, slot)
  {
    var named := FindNamed(st.contexts, name);
    if named.Some? {
      TopThenOuter(st.contexts, named.value, ty, name);
      Unpushed(st, named.value);
    }
  }
}
