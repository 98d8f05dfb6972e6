/**
 * The xray configuration object: inbounds with their client maps, changed in
 * place (backend/xray/config.go, and the table effects of backend/xray/user.go).
 */
module XrayConfig {
  import opened Wrappers
  import opened XrayClients

  class Inbound {
    const spec: Spec
    var clients: Clients

    constructor (spec: Spec)
      ensures this.spec == spec && clients == NO_CLIENTS
    {
      this.spec, clients := spec, NO_CLIENTS;
    }

    method SyncUsers(h: Hash, users: seq<User>)
      modifies this
      ensures clients == Synced(h, spec, NO_CLIENTS, users, |users|)
    {
      clients := NO_CLIENTS;
      for i := 0 to |users|
        invariant clients == Synced(h, spec, NO_CLIENTS, users, i)
      {
        var user := users[i];
        if spec.tag in user.inbounds {
          match spec.protocol
          case Vmess =>
            if user.vmess.Id? {
              clients := clients[user.email := VmessAccount(user.email, user.vmess.id)];
            }
          case Vless =>
            if user.vless.Id? {
              clients := clients[user.email := VlessAccount(user.email, user.vless.id)];
            }
          case Trojan =>
            if user.trojan.Some? {
              clients := clients[user.email := TrojanAccount(user.email, user.trojan.value)];
            }
          case Shadowsocks =>
            if user.shadowsocks.Some? {
              if spec.Is2022() {
                var account := ShadowsocksAccount(user.email, user.shadowsocks.value);
                clients := clients[user.email := CheckShadowsocks2022(h, spec.cipher.value, account)];
              } else {
                clients := clients[user.email := ShadowsocksTcpAccount(user.email, user.shadowsocks.value)];
              }
            }
          case Hysteria =>
            if user.hysteria.Some? {
              clients := clients[user.email := HysteriaAccount(user.email, user.hysteria.value)];
            }
          case Other =>
        }
      }
    }

    method UpdateUser(h: Hash, account: Account)
      modifies this
      ensures clients == old(clients)[account.email := StoredAlone(h, spec, account)]
    {
      match account
      case ShadowsocksAccount(email, _) =>
        if spec.cipher.Some? {
          clients := clients[email := CheckShadowsocks2022(h, spec.cipher.value, account)];
        } else {
          clients := clients[email := account];
        }
      case _ =>
        clients := clients[account.email := account];
    }

    method UpdateUsers(h: Hash, accounts: seq<Account>, removeEmails: set<string>)
      modifies this
      ensures clients == Without(StoreFirst(h, spec, old(clients), accounts, |accounts|), removeEmails)
    {
      for i := 0 to |accounts|
        invariant clients == StoreFirst(h, spec, old(clients), accounts, i)
      {
        var account := accounts[i];
        if spec.Is2022() {
          if account.ShadowsocksAccount? {
            clients := clients[account.email := CheckShadowsocks2022(h, spec.cipher.value, account)];
          }
        } else if (spec.protocol.Vmess? && account.VmessAccount?)
               || (spec.protocol.Vless? && account.VlessAccount?)
               || (spec.protocol.Trojan? && account.TrojanAccount?)
               || (spec.protocol.Shadowsocks? && account.ShadowsocksTcpAccount?)
               || (spec.protocol.Hysteria? && account.HysteriaAccount?) {
          clients := clients[account.email := account];
        }
      }
      clients := clients - removeEmails;
    }

    method RemoveUser(email: string)
      modifies this
      ensures clients == Without(old(clients), {email})
    {
      clients := clients - {email};
    }
  }

  /** One inbound's accounts and removals, as `buildInboundUpdates` collects them. */
  method BuildInboundUpdate(h: Hash, s: Spec, users: seq<User>) returns (accounts: seq<Account>, removals: set<string>)
    ensures accounts == Accounts(h, s, users, |users|) && removals == Removals(h, s, users, |users|)
  {
    accounts, removals := [], {};
    for i := 0 to |users|
      invariant accounts == Accounts(h, s, users, i) && removals == Removals(h, s, users, i)
    {
      ActiveIsRebuilt(h, s, users[i]);
      hide Rebuilt;
      match IsActiveInbound(h, s, users[i].inbounds, SetupUserAccount(users[i]))
      case Some(account) => accounts := accounts + [account];
      case None => removals := removals + {users[i].email};
    }
  }

  class Config {
    const inbounds: seq<Inbound>

    constructor (inbounds: seq<Inbound>)
      ensures this.inbounds == inbounds
    {
      this.inbounds := inbounds;
    }

    ghost predicate Valid() {
      forall i, j :: 0 <= i < j < |inbounds| ==> inbounds[i] != inbounds[j]
    }

    /** The inbound a tag stands for: the last one that is not excluded. */
    ghost predicate StandsFor(i: nat)
      requires i < |inbounds|
    {
      && !inbounds[i].spec.exclude
      && forall j :: i < j < |inbounds| && !inbounds[j].spec.exclude ==> inbounds[j].spec.tag != inbounds[i].spec.tag
    }

    /**
     * With distinct tags, known ciphers and one entry per user: `SyncUsers(v)` and
     * then `UpdateUsers(u)`, or single updates in any order, leave every inbound
     * that is not excluded with what `SyncUsers` of the overridden list leaves.
     */
    lemma UpdateIsRebuild(h: Hash, v: seq<User>, u: seq<User>, order: seq<User>, i: nat)
      requires i < |inbounds| && !inbounds[i].spec.exclude && inbounds[i].spec.Known()
      requires forall j, k :: 0 <= j < k < |inbounds| ==> inbounds[j].spec.tag != inbounds[k].spec.tag
      requires DistinctEmails(u) && DistinctEmails(order) && forall x :: x in order <==> x in u
      ensures StandsFor(i)
      ensures var s, both := inbounds[i].spec, Override(v, u);
              var first, rebuilt := Synced(h, s, NO_CLIENTS, v, |v|), Synced(h, s, NO_CLIENTS, both, |both|);
              Updated(h, s, first, u) == rebuilt && UpdatedFirst(h, s, first, order, |order|) == rebuilt
    {
      var s := inbounds[i].spec;
      hide Updated, UpdatedFirst, Synced, Override, Disagrees, DistinctEmails;
      forall email ensures !Disagrees(h, s, u, email) {
        DistinctIsDecided(h, s, u, email);
      }
      IncrementalEqualsRebuild(h, s, v, u);
      OneByOneIsBatch(h, s, Synced(h, s, NO_CLIENTS, v, |v|), u, order);
    }

    method SyncUsers(h: Hash, users: seq<User>)
      requires Valid()
      modifies inbounds
      ensures forall i :: 0 <= i < |inbounds| ==>
                inbounds[i].clients == if inbounds[i].spec.exclude then old(inbounds[i].clients)
                                       else Synced(h, inbounds[i].spec, NO_CLIENTS, users, |users|)
    {
      hide Synced;
      for i := 0 to |inbounds|
        invariant forall j :: i <= j < |inbounds| ==> inbounds[j].clients == old(inbounds[j].clients)
        invariant forall j :: 0 <= j < i ==>
                    inbounds[j].clients == if inbounds[j].spec.exclude then old(inbounds[j].clients)
                                           else Synced(h, inbounds[j].spec, NO_CLIENTS, users, |users|)
      {
        if !inbounds[i].spec.exclude {
          inbounds[i].SyncUsers(h, users);
        }
      }
    }

    method IndexByTag() returns (byTag: map<string, nat>)
      ensures forall i :: 0 <= i < |inbounds| ==>
                (StandsFor(i) <==> inbounds[i].spec.tag in byTag && byTag[inbounds[i].spec.tag] == i)
      ensures forall tag :: tag in byTag ==> byTag[tag] < |inbounds| && inbounds[byTag[tag]].spec.tag == tag
    {
      byTag := map[];
      for i := 0 to |inbounds|
        invariant forall tag :: tag in byTag ==>
                    && byTag[tag] < i && inbounds[byTag[tag]].spec.tag == tag && !inbounds[byTag[tag]].spec.exclude
                    && forall j :: byTag[tag] < j < i && !inbounds[j].spec.exclude ==> inbounds[j].spec.tag != tag
        invariant forall j :: 0 <= j < i && !inbounds[j].spec.exclude ==> inbounds[j].spec.tag in byTag
      {
        if !inbounds[i].spec.exclude {
          byTag := byTag[inbounds[i].spec.tag := i];
        }
      }
    }

    /** The inbounds are taken in any order; two of one tag share the fate of the last. */
    method UpdateUsers(h: Hash, users: seq<User>)
      requires Valid()
      modifies inbounds
      ensures forall i :: 0 <= i < |inbounds| ==>
                inbounds[i].clients == if StandsFor(i) then Updated(h, inbounds[i].spec, old(inbounds[i].clients), users)
                                       else old(inbounds[i].clients)
      ensures forall i, j :: 0 <= i < j < |inbounds| && inbounds[i].spec.tag == inbounds[j].spec.tag && !inbounds[j].spec.exclude ==>
                inbounds[i].clients == old(inbounds[i].clients)
      ensures forall i :: 0 <= i < |inbounds| && !inbounds[i].spec.exclude ==>
                || inbounds[i].clients == Updated(h, inbounds[i].spec, old(inbounds[i].clients), users)
                || exists j :: i < j < |inbounds| && inbounds[j].spec.tag == inbounds[i].spec.tag
    {
      assert forall i, j :: 0 <= i < j < |inbounds| && inbounds[i].spec.tag == inbounds[j].spec.tag && !inbounds[j].spec.exclude ==> !StandsFor(i);
      var byTag := IndexByTag();
      var todo := byTag.Keys;
      hide StandsFor;
      while todo != {}
        invariant todo <= byTag.Keys
        invariant forall i :: 0 <= i < |inbounds| ==>
                    inbounds[i].clients == if StandsFor(i) && inbounds[i].spec.tag !in todo
                                           then Updated(h, inbounds[i].spec, old(inbounds[i].clients), users)
                                           else old(inbounds[i].clients)
      {
        var tag :| tag in todo;
        todo := todo - {tag};
        var k := byTag[tag];
        ghost var before := inbounds[k].clients;
        var accounts, removals := BuildInboundUpdate(h, inbounds[k].spec, users);
        inbounds[k].UpdateUsers(h, accounts, removals);
        assert inbounds[k].clients == Updated(h, inbounds[k].spec, before, users);
        hide Updated;
      }
    }

    /** Every inbound that is not excluded takes or drops the user. */
    method SyncUser(h: Hash, user: User)
      requires Valid()
      modifies inbounds
      ensures forall i :: 0 <= i < |inbounds| ==>
                inbounds[i].clients == if inbounds[i].spec.exclude then old(inbounds[i].clients)
                                       else UpdatedOne(h, inbounds[i].spec, old(inbounds[i].clients), user)
    {
      for i := 0 to |inbounds|
        invariant forall j :: i <= j < |inbounds| ==> inbounds[j].clients == old(inbounds[j].clients)
        invariant forall j :: 0 <= j < i ==>
                    inbounds[j].clients == if inbounds[j].spec.exclude then old(inbounds[j].clients)
                                           else UpdatedOne(h, inbounds[j].spec, old(inbounds[j].clients), user)
      {
        var inbound := inbounds[i];
        if inbound.spec.exclude {
          continue;
        }
        ghost var before := inbound.clients;
        ActiveIsRebuilt(h, inbound.spec, user);
        match IsActiveInbound(h, inbound.spec, user.inbounds, SetupUserAccount(user)) {
          case Some(account) => inbound.UpdateUser(h, account);
          case None => inbound.RemoveUser(user.email);
        }
        assert inbound.clients == UpdatedOne(h, inbound.spec, before, user);
        hide UpdatedOne;
      }
    }
  }
}
