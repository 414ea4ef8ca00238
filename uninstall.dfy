/**
 * The app-uninstalled webhook handler and the part of the relational store it
 * touches.
 *
 * A shop row is keyed by its unique domain and owns, by foreign key with
 * cascading delete, one settings row and any number of product-history,
 * product-cache, location-cache and job rows. Sessions reference a shop only
 * by its domain string and are outside the cascade.
 */
module Uninstall {
  import opened Wrappers

  type ShopId = string

  datatype Shop = Shop(id: ShopId, domain: string)
  datatype Settings = Settings(shopId: ShopId, tier: string)
  /** A row of a 1:N table that references a shop; its other columns are opaque. */
  datatype Dependent = Dependent(shopId: ShopId, columns: string)
  datatype Session = Session(id: string, shop: string)

  /** The value of every table the handler reads or deletes from. Dependent
      tables are keyed by row id, settings by shop id (1:1), sessions by
      session id. */
  datatype Tables = Tables(
    shops: map<string, Shop>,
    settings: map<ShopId, Settings>,
    productHistory: map<nat, Dependent>,
    productCache: map<nat, Dependent>,
    locationCache: map<nat, Dependent>,
    jobs: map<nat, Dependent>,
    sessions: map<string, Session>)

  /** Everything in the store that belongs to one shop domain. */
  datatype Slice = Slice(
    shop: Option<Shop>,
    settings: map<ShopId, Settings>,
    productHistory: map<nat, Dependent>,
    productCache: map<nat, Dependent>,
    locationCache: map<nat, Dependent>,
    jobs: map<nat, Dependent>,
    sessions: map<string, Session>)

  /** What authenticating the request yields: a rejection, or the shop domain,
      the session found for it, if any, and the topic. */
  datatype Auth = Rejected | Verified(shop: string, session: Option<Session>, topic: string)

  /** Which store statement, if any, throws. A failing statement changes nothing. */
  datatype Fault = NoFault | LookupFails | ShopDeleteFails | SessionDeleteFails

  /** `new Response(null, { status: 200 })`, or whatever `boundary.error` answers. */
  datatype Response = Ok200 | ErrorBoundary

  /** The pre-deletion counts the handler logs. */
  datatype AuditCounts = AuditCounts(productHistory: nat, productCache: nat, locationCache: nat, jobs: nat)

  function ShopIds(t: Tables): set<ShopId>
  {
    set d | d in t.shops :: t.shops[d].id
  }

  predicate References(rows: map<nat, Dependent>, ids: set<ShopId>)
  {
    forall k :: k in rows ==> rows[k].shopId in ids
  }

  /** The store's declared constraints: shops keyed by their domain, shop ids
      unique, and every dependent row referencing an existing shop. */
  ghost predicate WellFormed(t: Tables)
  {
    && (forall d :: d in t.shops ==> t.shops[d].domain == d)
    && (forall d1, d2 :: d1 in t.shops && d2 in t.shops && t.shops[d1].id == t.shops[d2].id ==> d1 == d2)
    && (forall id :: id in t.settings ==> t.settings[id].shopId == id && id in ShopIds(t))
    && References(t.productHistory, ShopIds(t))
    && References(t.productCache, ShopIds(t))
    && References(t.locationCache, ShopIds(t))
    && References(t.jobs, ShopIds(t))
  }

  /** The rows of `rows` that reference `id`. */
  function Owned(rows: map<nat, Dependent>, id: Option<ShopId>): (r: map<nat, Dependent>)
    ensures forall k :: k in r <==> k in rows && id == Some(rows[k].shopId)
    ensures forall k :: k in r ==> r[k] == rows[k]
  {
    map k | k in rows && id == Some(rows[k].shopId) :: rows[k]
  }

  /** The rows of `rows` that do not reference `id`: what a cascade leaves. */
  function Without(rows: map<nat, Dependent>, id: ShopId): (r: map<nat, Dependent>)
    ensures forall k :: k in r <==> k in rows && rows[k].shopId != id
    ensures forall k :: k in r ==> r[k] == rows[k]
  {
    map k | k in rows && rows[k].shopId != id :: rows[k]
  }

  function SessionsOf(sessions: map<string, Session>, domain: string): (r: map<string, Session>)
    ensures forall k :: k in r <==> k in sessions && sessions[k].shop == domain
    ensures forall k :: k in r ==> r[k] == sessions[k]
  {
    map k | k in sessions && sessions[k].shop == domain :: sessions[k]
  }

  function SessionsWithout(sessions: map<string, Session>, domain: string): (r: map<string, Session>)
    ensures forall k :: k in r <==> k in sessions && sessions[k].shop != domain
    ensures forall k :: k in r ==> r[k] == sessions[k]
  {
    map k | k in sessions && sessions[k].shop != domain :: sessions[k]
  }

  /** The settings row of `id`, as a map of at most one entry. */
  function SettingsOf(settings: map<ShopId, Settings>, id: Option<ShopId>): (r: map<ShopId, Settings>)
    ensures forall k :: k in r <==> k in settings && id == Some(k)
    ensures forall k :: k in r ==> r[k] == settings[k]
  {
    map k | k in settings && id == Some(k) :: settings[k]
  }

  /** The shop row of `domain`, its dependents and its sessions. */
  function SliceOf(t: Tables, domain: string): Slice
  {
    var id := if domain in t.shops then Some(t.shops[domain].id) else None;
    Slice(
      if domain in t.shops then Some(t.shops[domain]) else None,
      SettingsOf(t.settings, id),
      Owned(t.productHistory, id),
      Owned(t.productCache, id),
      Owned(t.locationCache, id),
      Owned(t.jobs, id),
      SessionsOf(t.sessions, domain))
  }

  const EmptySlice: Slice := Slice(None, map[], map[], map[], map[], map[], map[])

  /** `db.shop.delete({ where: { shop } })` with the declared cascade: the shop
      row and every row referencing its id go; sessions stay. */
  function CascadeDelete(t: Tables, domain: string): Tables
    requires domain in t.shops
  {
    var id := t.shops[domain].id;
    t.(shops := t.shops - {domain},
       settings := t.settings - {id},
       productHistory := Without(t.productHistory, id),
       productCache := Without(t.productCache, id),
       locationCache := Without(t.locationCache, id),
       jobs := Without(t.jobs, id))
  }

  /** `db.session.deleteMany({ where: { shop } })`. */
  function RemoveSessions(t: Tables, domain: string): Tables
  {
    t.(sessions := SessionsWithout(t.sessions, domain))
  }

  /** Nothing of `domain` is left: no shop row and no session. */
  predicate Uninstalled(t: Tables, domain: string)
  {
    domain !in t.shops && forall k :: k in t.sessions ==> t.sessions[k].shop != domain
  }

  /** No row of any dependent table references `id`. */
  predicate NoRowsOf(t: Tables, id: ShopId)
  {
    && id !in t.settings
    && (forall k :: k in t.productHistory ==> t.productHistory[k].shopId != id)
    && (forall k :: k in t.productCache ==> t.productCache[k].shopId != id)
    && (forall k :: k in t.locationCache ==> t.locationCache[k].shopId != id)
    && (forall k :: k in t.jobs ==> t.jobs[k].shopId != id)
  }

  lemma OwnedWithout(rows: map<nat, Dependent>, id: ShopId, other: ShopId)
    requires other != id
    ensures Owned(Without(rows, id), Some(other)) == Owned(rows, Some(other))
  {
  }

  lemma SettingsOfMinus(settings: map<ShopId, Settings>, id: ShopId, other: Option<ShopId>)
    requires other != Some(id)
    ensures SettingsOf(settings - {id}, other) == SettingsOf(settings, other)
  {
  }

  lemma SessionsOfWithout(sessions: map<string, Session>, domain: string, other: string)
    ensures SessionsOf(SessionsWithout(sessions, domain), other)
         == if other == domain then map[] else SessionsOf(sessions, other)
  {
  }

  /** Replacing the session table changes a slice in its sessions only. */
  lemma SliceWithSessions(t: Tables, sessions: map<string, Session>, domain: string)
    ensures SliceOf(t.(sessions := sessions), domain) == SliceOf(t, domain).(sessions := SessionsOf(sessions, domain))
  {
  }

  /** A domain without a shop row owns nothing but its sessions. */
  lemma SliceWithoutShop(t: Tables, domain: string)
    requires domain !in t.shops
    ensures SliceOf(t, domain) == EmptySlice.(sessions := SessionsOf(t.sessions, domain))
  {
    assert SettingsOf(t.settings, None) == map[];
    assert Owned(t.productHistory, None) == map[];
    assert Owned(t.productCache, None) == map[];
    assert Owned(t.locationCache, None) == map[];
    assert Owned(t.jobs, None) == map[];
  }

  /** The cascade keeps the constraints and leaves no row that references the
      deleted shop's id. */
  lemma CascadeComplete(t: Tables, domain: string)
    requires WellFormed(t) && domain in t.shops
    ensures var r := CascadeDelete(t, domain);
      WellFormed(r) && domain !in r.shops && NoRowsOf(r, t.shops[domain].id) && r.sessions == t.sessions
  {
    var r := CascadeDelete(t, domain);
    var id := t.shops[domain].id;
    assert ShopIds(r) == ShopIds(t) - {id} by {
      forall x | x in ShopIds(t) - {id} ensures x in ShopIds(r) {
        var d :| d in t.shops && t.shops[d].id == x;
        assert d != domain && d in r.shops;
      }
    }
  }

  /** The whole delete (cascade, then sessions) leaves nothing of `domain`. */
  lemma UninstallEmptiesDomain(t: Tables, domain: string)
    requires domain in t.shops
    ensures SliceOf(RemoveSessions(CascadeDelete(t, domain), domain), domain) == EmptySlice
  {
    var r := RemoveSessions(CascadeDelete(t, domain), domain);
    SessionsOfWithout(t.sessions, domain, domain);
    assert SettingsOf(r.settings, None) == map[];
    assert Owned(r.productHistory, None) == map[];
  }

  /** The cascade of one shop leaves the slice of a shop with another id as it was. */
  lemma CascadeKeepsDistinct(t: Tables, domain: string, other: string)
    requires domain in t.shops && other != domain
    requires other in t.shops ==> t.shops[other].id != t.shops[domain].id
    ensures SliceOf(CascadeDelete(t, domain), other) == SliceOf(t, other)
  {
    var c := CascadeDelete(t, domain);
    var id := t.shops[domain].id;
    if other in t.shops {
      var oid := t.shops[other].id;
      SettingsOfMinus(t.settings, id, Some(oid));
      OwnedWithout(t.productHistory, id, oid);
      OwnedWithout(t.productCache, id, oid);
      OwnedWithout(t.locationCache, id, oid);
      OwnedWithout(t.jobs, id, oid);
    } else {
      SliceWithoutShop(t, other);
      SliceWithoutShop(c, other);
    }
  }

  lemma UninstallKeepsDistinct(t: Tables, domain: string, other: string)
    requires domain in t.shops && other != domain
    requires other in t.shops ==> t.shops[other].id != t.shops[domain].id
    ensures SliceOf(RemoveSessions(CascadeDelete(t, domain), domain), other) == SliceOf(t, other)
  {
    var c := CascadeDelete(t, domain);
    CascadeKeepsDistinct(t, domain, other);
    SliceWithSessions(c, SessionsWithout(c.sessions, domain), other);
    SessionsOfWithout(c.sessions, domain, other);
    assert SliceOf(c, other).(sessions := SessionsOf(c.sessions, other)) == SliceOf(c, other);
  }

  /** The whole delete (cascade, then sessions) removes everything of `domain`
      and nothing of any other domain. */
  lemma UninstallScope(t: Tables, domain: string, other: string)
    requires WellFormed(t) && domain in t.shops
    ensures var r := RemoveSessions(CascadeDelete(t, domain), domain);
      && SliceOf(r, domain) == EmptySlice
      && (other != domain ==> SliceOf(r, other) == SliceOf(t, other))
  {
    UninstallEmptiesDomain(t, domain);
    if other != domain {
      UninstallKeepsDistinct(t, domain, other);
    }
  }

  /** Deleting the sessions of a domain that has none left changes nothing. */
  lemma RemoveSessionsIdempotent(t: Tables, domain: string)
    requires Uninstalled(t, domain)
    ensures RemoveSessions(t, domain) == t
  {
    assert SessionsWithout(t.sessions, domain) == t.sessions;
  }

  /** The no-shop branch touches the sessions of `domain` only. */
  lemma RemoveSessionsScope(t: Tables, domain: string, other: string)
    requires domain !in t.shops
    ensures var r := RemoveSessions(t, domain);
      && SliceOf(r, domain) == EmptySlice
      && (other != domain ==> SliceOf(r, other) == SliceOf(t, other))
  {
    var remaining := SessionsWithout(t.sessions, domain);
    SliceWithSessions(t, remaining, domain);
    SliceWithoutShop(t, domain);
    SessionsOfWithout(t.sessions, domain, domain);
    if other != domain {
      SliceWithSessions(t, remaining, other);
      SessionsOfWithout(t.sessions, domain, other);
      assert SliceOf(t, other).(sessions := SessionsOf(t.sessions, other)) == SliceOf(t, other);
    }
  }

  class Store {
    var shops: map<string, Shop>
    var settings: map<ShopId, Settings>
    var productHistory: map<nat, Dependent>
    var productCache: map<nat, Dependent>
    var locationCache: map<nat, Dependent>
    var jobs: map<nat, Dependent>
    var sessions: map<string, Session>

    /** The tables as one value. */
    function Snapshot(): Tables
      reads this
    {
      Tables(shops, settings, productHistory, productCache, locationCache, jobs, sessions)
    }

    ghost predicate Valid()
      reads this
    {
      WellFormed(Snapshot())
    }

    constructor ()
      ensures Valid()
      ensures Snapshot() == Tables(map[], map[], map[], map[], map[], map[], map[])
    {
      shops, settings := map[], map[];
      productHistory, productCache, locationCache, jobs := map[], map[], map[], map[];
      sessions := map[];
    }

    /** `db.shop.findUnique({ where: { shop }, include: ... })`; `ok` is false
        when the statement throws. */
    method FindShop(domain: string, fails: bool) returns (ok: bool, found: Option<Shop>)
      ensures ok == !fails
      ensures ok ==> (found.Some? <==> domain in shops)
      ensures ok && found.Some? ==> found.value == shops[domain]
    {
      ok := !fails;
      found := if ok && domain in shops then Some(shops[domain]) else None;
    }

    /** `db.shop.delete({ where: { shop } })`: throws when the statement fails or
        there is no such row; otherwise removes the row and, by cascade, its
        dependents. */
    method DeleteShop(domain: string, fails: bool) returns (ok: bool)
      requires Valid()
      modifies this
      ensures Valid()
      ensures ok <==> !fails && domain in old(shops)
      ensures ok ==> Snapshot() == CascadeDelete(old(Snapshot()), domain)
      ensures !ok ==> unchanged(this)
    {
      ok := !fails && domain in shops;
      if ok {
        CascadeComplete(Snapshot(), domain);
        var id := shops[domain].id;
        shops := shops - {domain};
        settings := settings - {id};
        productHistory := Without(productHistory, id);
        productCache := Without(productCache, id);
        locationCache := Without(locationCache, id);
        jobs := Without(jobs, id);
      }
    }

    /** `db.session.deleteMany({ where: { shop } })`. */
    method DeleteSessions(domain: string, fails: bool) returns (ok: bool)
      requires Valid()
      modifies this
      ensures Valid()
      ensures ok == !fails
      ensures ok ==> Snapshot() == RemoveSessions(old(Snapshot()), domain)
      ensures !ok ==> unchanged(this)
    {
      ok := !fails;
      if ok {
        sessions := SessionsWithout(sessions, domain);
      }
    }

    /** The webhook `action`. */
    method Action(auth: Auth, fault: Fault) returns (response: Response, audit: Option<AuditCounts>)
      requires Valid()
      modifies this
      ensures Valid()
      // authentication failure: error response, nothing touched
      ensures auth.Rejected? ==> response == ErrorBoundary && audit.None? && unchanged(this)
      // no session: a redundant delivery, nothing touched
      ensures auth.Verified? && auth.session.None? ==> response == Ok200 && audit.None? && unchanged(this)
      // the lookup throws: error response, nothing touched
      ensures auth.Verified? && auth.session.Some? && fault == LookupFails ==>
        response == ErrorBoundary && audit.None? && unchanged(this)
      // no shop row: only the domain's sessions go
      ensures auth.Verified? && auth.session.Some? && fault != LookupFails && auth.shop !in old(shops) ==>
        && audit.None?
        && (fault == SessionDeleteFails ==> response == ErrorBoundary && unchanged(this))
        && (fault != SessionDeleteFails ==>
              response == Ok200 && Snapshot() == RemoveSessions(old(Snapshot()), auth.shop))
      // shop row found: counts logged, then the cascade, then the sessions
      ensures auth.Verified? && auth.session.Some? && fault != LookupFails && auth.shop in old(shops) ==>
        var before := old(SliceOf(Snapshot(), auth.shop));
        && audit == Some(AuditCounts(|before.productHistory|, |before.productCache|,
                                     |before.locationCache|, |before.jobs|))
        && (fault == ShopDeleteFails ==> response == ErrorBoundary && unchanged(this))
        && (fault == SessionDeleteFails ==>
              response == ErrorBoundary && Snapshot() == CascadeDelete(old(Snapshot()), auth.shop))
        && (fault == NoFault ==>
              response == Ok200
              && Snapshot() == RemoveSessions(CascadeDelete(old(Snapshot()), auth.shop), auth.shop))
    {
      audit := None;
      if auth.Rejected? {
        return ErrorBoundary, None;
      }
      var shop := auth.shop;
      if auth.session.None? {
        return Ok200, None;
      }
      var ok, record := FindShop(shop, fault == LookupFails);
      if !ok {
        return ErrorBoundary, None;
      }
      if record.None? {
        ok := DeleteSessions(shop, fault == SessionDeleteFails);
        return if ok then Ok200 else ErrorBoundary, None;
      }
      var id := record.value.id;
      audit := Some(AuditCounts(|Owned(productHistory, Some(id))|, |Owned(productCache, Some(id))|,
                                |Owned(locationCache, Some(id))|, |Owned(jobs, Some(id))|));
      ok := DeleteShop(shop, fault == ShopDeleteFails);
      if !ok {
        return ErrorBoundary, audit;
      }
      ok := DeleteSessions(shop, fault == SessionDeleteFails);
      response := if ok then Ok200 else ErrorBoundary;
    }

    /** A delivery after a completed uninstall answers 200 and changes nothing,
        whether or not it still carries a session. */
    method Redeliver(auth: Auth) returns (response: Response)
      requires Valid() && auth.Verified? && Uninstalled(Snapshot(), auth.shop)
      modifies this
      ensures response == Ok200 && Snapshot() == old(Snapshot())
    {
      RemoveSessionsIdempotent(Snapshot(), auth.shop);
      var audit;
      response, audit := Action(auth, NoFault);
    }
  }

  /** A completed delete leaves the domain uninstalled, so a redelivery is a no-op. */
  lemma UninstallLeavesNothing(t: Tables, domain: string)
    requires WellFormed(t)
    ensures domain in t.shops ==> Uninstalled(RemoveSessions(CascadeDelete(t, domain), domain), domain)
    ensures domain !in t.shops ==> Uninstalled(RemoveSessions(t, domain), domain)
  {
  }
}
