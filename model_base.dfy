/**
 * The observer base of the MVC framework: the model keeps a list of clients
 * and refreshes each of them whenever its modification flag is assigned.
 */
module ModelBases {
  import opened OrderedMaps

  /** A view or controller registered with the model; its refresh() is outside the model. */
  class Client {
    constructor() {}
  }

  class ModelBase {
    var clients: seq<Client>
    var isModified: bool
    /** Every client.refresh() call, in the order made. */
    var refreshLog: seq<Client>

    ghost predicate Valid()
      reads this
    {
      Distinct(clients)
    }

    constructor()
      ensures Valid()
      ensures clients == [] && !isModified && refreshLog == []
    {
      clients := [];
      isModified := false;
      refreshLog := [];
    }

    /** The isModified setter: store the flag, then refresh each client in registration order. */
    method SetModified(flag: bool)
      modifies this`isModified, this`refreshLog
      ensures isModified == flag
      ensures refreshLog == old(refreshLog) + clients
    {
      isModified := flag;
      var i := 0;
      while i < |clients|
        invariant 0 <= i <= |clients|
        invariant isModified == flag
        invariant refreshLog == old(refreshLog) + clients[..i]
      {
        refreshLog := refreshLog + [clients[i]];
        i := i + 1;
        assert clients[..i] == clients[..i - 1] + [clients[i - 1]];
      }
      assert clients[..i] == clients;
    }

    method RegisterClient(client: Client)
      requires Valid()
      modifies this`clients
      ensures Valid()
      ensures client in clients
      ensures clients == if client in old(clients) then old(clients) else old(clients) + [client]
    {
      if client !in clients {
        clients := clients + [client];
        forall i, j | 0 <= i < j < |clients| ensures clients[i] != clients[j] {
          if j < |clients| - 1 {
            assert clients[i] == old(clients)[i] && clients[j] == old(clients)[j];
          }
        }
      }
    }

    method UnregisterClient(client: Client)
      requires Valid()
      modifies this`clients
      ensures Valid()
      ensures client !in clients
      ensures client !in old(clients) ==> clients == old(clients)
      ensures client in old(clients) ==> clients == RemoveFirst(old(clients), client)
      ensures forall c :: c in clients <==> c in old(clients) && c != client
      ensures |clients| == |old(clients)| - (if client in old(clients) then 1 else 0)
    {
      if client in clients {
        clients := RemoveFirst(clients, client);
      }
    }

    /** The callback elements call when a property value changes. */
    method OnElementChange()
      modifies this`isModified, this`refreshLog
      ensures isModified
      ensures refreshLog == old(refreshLog) + clients
    {
      SetModified(true);
    }
  }

  /**
   * What an element's change callback did between two states: when the
   * element's value changed, its model (if any) is marked modified and every
   * client was refreshed once; otherwise the model is untouched.
   */
  twostate predicate Notified(mb: ModelBase?, changed: bool)
    reads mb
  {
    mb != null ==>
      mb.clients == old(mb.clients) &&
      if changed then mb.isModified && mb.refreshLog == old(mb.refreshLog) + old(mb.clients)
      else mb.isModified == old(mb.isModified) && mb.refreshLog == old(mb.refreshLog)
  }

  /** list.index(x): the position of the first occurrence of x. */
  function FirstIndex(s: seq<Client>, x: Client): (i: nat)
    requires x in s
    ensures i < |s| && s[i] == x && x !in s[..i]
  {
    if s[0] == x then 0
    else
      var j := FirstIndex(s[1..], x);
      assert s[..j + 1] == [s[0]] + s[1..][..j];
      j + 1
  }

  /** list.remove(x): drop the first occurrence of x. */
  function RemoveFirst(s: seq<Client>, x: Client): (r: seq<Client>)
    requires x in s
    ensures r == s[..FirstIndex(s, x)] + s[FirstIndex(s, x) + 1..]
    ensures |r| == |s| - 1
    ensures forall c :: c in s && c != x ==> c in r
    ensures forall c :: c in r ==> c in s
    ensures Distinct(s) ==> Distinct(r) && x !in r
  {
    if s[0] == x then
      DeleteHead(s, x);
      s[1..]
    else
      var rest := RemoveFirst(s[1..], x);
      DeleteFirstOfCons(s, x, rest);
      [s[0]] + rest
  }

  lemma DeleteHead(s: seq<Client>, x: Client)
    requires s != [] && s[0] == x
    ensures s[1..] == s[..FirstIndex(s, x)] + s[FirstIndex(s, x) + 1..]
    ensures forall c :: c in s && c != x ==> c in s[1..]
    ensures Distinct(s) ==> Distinct(s[1..]) && x !in s[1..]
  {
    assert s[..0] + s[1..] == s[1..];
    if Distinct(s) {
      forall i | 0 <= i < |s| - 1 ensures s[1..][i] != x {
        assert s[1..][i] == s[i + 1];
      }
    }
  }

  lemma DeleteFirstOfCons(s: seq<Client>, x: Client, rest: seq<Client>)
    requires x in s && s[0] != x
    requires rest == s[1..][..FirstIndex(s[1..], x)] + s[1..][FirstIndex(s[1..], x) + 1..]
    requires Distinct(s[1..]) ==> Distinct(rest) && x !in rest
    requires forall c :: c in rest ==> c in s[1..]
    requires forall c :: c in s[1..] && c != x ==> c in rest
    requires |rest| == |s| - 2
    ensures [s[0]] + rest == s[..FirstIndex(s, x)] + s[FirstIndex(s, x) + 1..]
    ensures Distinct(s) ==> Distinct([s[0]] + rest)
    ensures forall c :: c in s && c != x ==> c in [s[0]] + rest
    ensures forall c :: c in [s[0]] + rest ==> c in s
  {
    var j := FirstIndex(s[1..], x);
    assert FirstIndex(s, x) == j + 1;
    assert s[..j + 1] == [s[0]] + s[1..][..j];
    assert s[j + 2..] == s[1..][j + 1..];
    if Distinct(s) {
      assert Distinct(s[1..]);
      ConsDistinct(s[0], rest);
    }
  }
}
