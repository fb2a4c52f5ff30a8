/**
 * The superadmin panel's client list, held in page memory: adding a client,
 * toggling a client's status, the search filter, the counters above the
 * list and the status badge. The current date is a parameter.
 */
module SuperAdmin {
  import opened Wrappers
  import opened Text
  import opened Lists

  datatype Client = Client(
    id: int,
    name: string,
    email: string,
    phone: string,
    status: string,
    churches: int,
    createdAt: string,
    responsibleName: Option<string>,
    responsibleEmail: Option<string>)

  /** The add-client form. */
  datatype NewClient = NewClient(
    name: string, email: string, phone: string, responsibleName: string, responsibleEmail: string)

  const EmptyForm: NewClient := NewClient("", "", "", "", "")

  datatype Panel = Panel(clients: seq<Client>, form: NewClient)

  /** The three sample clients the page starts with. */
  const InitialClients: seq<Client> := [
    Client(1, "Igreja Batista Central", "contato@batista-central.org.br", "(11) 99999-9999",
           "active", 3, "2024-01-15", None, None),
    Client(2, "Assembleia de Deus Maranata", "admin@admaranata.com.br", "(21) 88888-8888",
           "pending", 0, "2024-02-20", None, None),
    Client(3, "Igreja Universal do Reino", "gestao@iurd-brasil.org", "(11) 77777-7777",
           "inactive", 8, "2024-01-10", None, None)]

  const InitialPanel: Panel := Panel(InitialClients, EmptyForm)

  /** Each client's id is its position plus one, so ids are distinct. */
  predicate IdsArePositions(clients: seq<Client>) {
    forall i :: 0 <= i < |clients| ==> clients[i].id == i + 1
  }

  lemma InitialIdsArePositions()
    ensures IdsArePositions(InitialClients)
  {
  }

  /**
   * `handleAddClient`: append the form's contents as a pending client with
   * no churches and id `length + 1`, then empty the form.
   */
  function AddClient(p: Panel, today: string): (r: Panel)
    ensures |r.clients| == |p.clients| + 1 && r.clients[..|p.clients|] == p.clients
    ensures var c := r.clients[|p.clients|];
      && c.id == |p.clients| + 1 && c.status == "pending" && c.churches == 0 && c.createdAt == today
      && c.name == p.form.name && c.email == p.form.email && c.phone == p.form.phone
      && c.responsibleName == Some(p.form.responsibleName) && c.responsibleEmail == Some(p.form.responsibleEmail)
    ensures r.form == EmptyForm
  {
    var f := p.form;
    var client := Client(|p.clients| + 1, f.name, f.email, f.phone, "pending", 0, today,
                         Some(f.responsibleName), Some(f.responsibleEmail));
    Panel(p.clients + [client], EmptyForm)
  }

  /** Adding keeps ids equal to positions. */
  lemma AddClientKeepsIds(p: Panel, today: string)
    requires IdsArePositions(p.clients)
    ensures IdsArePositions(AddClient(p, today).clients)
  {
    var r := AddClient(p, today).clients;
    forall i | 0 <= i < |r|
      ensures r[i].id == i + 1
    {
      if i < |p.clients| {
        assert r[i] == r[..|p.clients|][i];
      }
    }
  }

  /** The status a toggle moves to: active becomes inactive, anything else becomes active. */
  function Toggled(status: string): (next: string)
    ensures next in {"active", "inactive"}
    ensures next == "inactive" <==> status == "active"
  {
    if status == "active" then "inactive" else "active"
  }

  /** Toggling twice restores an active or inactive client, but not a pending one. */
  lemma ToggleTwice(status: string)
    ensures Toggled(Toggled(status)) == status <==> status in {"active", "inactive"}
  {
  }

  /** `toggleClientStatus`: map over the list, changing the status of the clients with the given id. */
  function ToggleStatus(clients: seq<Client>, id: int): (r: seq<Client>)
    ensures |r| == |clients|
    ensures forall i :: 0 <= i < |r| ==>
      (clients[i].id == id ==> r[i] == clients[i].(status := Toggled(clients[i].status)))
      && (clients[i].id != id ==> r[i] == clients[i])
    decreases |clients|
  {
    if clients == [] then []
    else
      var head := if clients[0].id == id then clients[0].(status := Toggled(clients[0].status)) else clients[0];
      [head] + ToggleStatus(clients[1..], id)
  }

  /** With ids equal to positions, a toggle changes exactly the one client at `id - 1`, or none. */
  lemma ToggleChangesOne(clients: seq<Client>, id: int)
    requires IdsArePositions(clients)
    ensures IdsArePositions(ToggleStatus(clients, id))
    ensures forall i :: 0 <= i < |clients| && i != id - 1 ==> ToggleStatus(clients, id)[i] == clients[i]
    ensures 1 <= id <= |clients| ==>
      ToggleStatus(clients, id)[id - 1].status == Toggled(clients[id - 1].status)
  {
  }

  predicate IsActiveClient(c: Client) { c.status == "active" }

  predicate IsPendingClient(c: Client) { c.status == "pending" }

  function ClientChurches(c: Client): int { c.churches }

  /** The four counters above the list. */
  datatype Counters = Counters(total: nat, active: nat, pending: nat, churches: int)

  function CountersOf(clients: seq<Client>): (c: Counters)
    ensures c.total == |clients|
    ensures c.active + c.pending <= c.total
  {
    CountDisjoint(clients, IsActiveClient, IsPendingClient);
    Counters(|clients|, Count(clients, IsActiveClient), Count(clients, IsPendingClient), Sum(clients, ClientChurches))
  }

  /** The counters of a list split in two are the sums of the parts' counters. */
  lemma CountersAppend(xs: seq<Client>, ys: seq<Client>)
    ensures var t, a, b := CountersOf(xs + ys), CountersOf(xs), CountersOf(ys);
      t == Counters(a.total + b.total, a.active + b.active, a.pending + b.pending, a.churches + b.churches)
  {
    CountAppend(xs, ys, IsActiveClient);
    CountAppend(xs, ys, IsPendingClient);
    SumAppend(xs, ys, ClientChurches);
  }

  /** One client's counters; with `CountersAppend` this fixes the counters of every list. */
  lemma CountersOfSingleton(c: Client)
    ensures CountersOf([c]) == Counters(1, if c.status == "active" then 1 else 0,
                                        if c.status == "pending" then 1 else 0, c.churches)
  {
    assert [c][1..] == [];
    SumSingleton(c, ClientChurches);
  }

  /** Adding a client adds one to the total and to the pending count, and no churches. */
  lemma AddClientCounters(p: Panel, today: string)
    ensures var before, after := CountersOf(p.clients), CountersOf(AddClient(p, today).clients);
      && after.total == before.total + 1
      && after.pending == before.pending + 1
      && after.active == before.active
      && after.churches == before.churches
  {
    var r := AddClient(p, today).clients;
    var c := r[|p.clients|];
    assert r == p.clients + [c];
    CountAppend(p.clients, [c], IsActiveClient);
    CountAppend(p.clients, [c], IsPendingClient);
    SumAppend(p.clients, [c], ClientChurches);
  }

  /** Whether a client matches the search term: its lower-cased name or e-mail contains the lower-cased term. */
  predicate MatchesTerm(c: Client, term: string)
    ensures term == "" ==> MatchesTerm(c, term)
    ensures MatchesTerm(c, term) ==> |term| <= |c.name| || |term| <= |c.email|
  {
    EmptyContained(ToLower(c.name));
    Contains(ToLower(c.name), ToLower(term)) || Contains(ToLower(c.email), ToLower(term))
  }

  /** `filteredClients` */
  function FilterClients(clients: seq<Client>, term: string): (r: seq<Client>)
    ensures IsSubsequence(r, clients)
    ensures forall i :: 0 <= i < |r| ==> MatchesTerm(r[i], term)
    ensures forall i :: 0 <= i < |clients| && MatchesTerm(clients[i], term) ==> clients[i] in r
    ensures |r| == Count(clients, c => MatchesTerm(c, term))
  {
    Filter(clients, c => MatchesTerm(c, term))
  }

  /** An empty search keeps every client in order. */
  lemma EmptySearchKeepsAll(clients: seq<Client>)
    ensures FilterClients(clients, "") == clients
  {
    forall i | 0 <= i < |clients|
      ensures MatchesTerm(clients[i], "")
    {
      EmptyContained(ToLower(clients[i].name));
    }
    FilterAll(clients, c => MatchesTerm(c, ""));
  }

  /** The search ignores the case of the term. */
  lemma SearchIgnoresTermCase(clients: seq<Client>, term: string)
    ensures FilterClients(clients, term) == FilterClients(clients, ToLower(term))
  {
    ToLowerIdempotent(term);
    FilterCongruent(clients, c => MatchesTerm(c, term), c => MatchesTerm(c, ToLower(term)));
  }

  /** `getStatusBadge`'s label. */
  function StatusLabel(status: string): (text: string)
    ensures text == "Desconhecido" <==> status !in {"active", "pending", "inactive"}
    ensures status == "active" ==> text == "Ativo"
    ensures status == "pending" ==> text == "Pendente"
    ensures status == "inactive" ==> text == "Inativo"
  {
    if status == "active" then "Ativo"
    else if status == "pending" then "Pendente"
    else if status == "inactive" then "Inativo"
    else "Desconhecido"
  }

  /** Every client the panel can produce carries a known label. */
  lemma ToggledStatusHasLabel(status: string)
    ensures StatusLabel(Toggled(status)) in {"Ativo", "Inativo"}
  {
  }
}
