// The capacity-limited resource the engine borrows from its simulation
// library: a number of machine slots, the requests holding one (users) and the
// requests waiting for one (queue), served first come, first served.
//
// Only the behaviour the engine relies on is modelled. A request appends to
// the queue and then makes one granting pass; a release frees the slot at once,
// and the next granting pass runs when the release event is processed by the
// event loop. A granting pass looks only at the head of the queue and grants it
// when a slot is free.
module SimResource {
  import opened Base

  /** `requested` and `admitted` are bookkeeping of the model: every car that
      ever asked, in asking order, and every car ever granted a slot, in
      granting order. */
  datatype Resource = Resource(
    capacity: nat,
    users: seq<nat>,
    queue: seq<nat>,
    requested: seq<nat>,
    admitted: seq<nat>)

  /** At least one machine; never more holders than machines; nobody holds or
      waits twice; and grants follow request order exactly: whoever was
      admitted, followed by whoever still waits, is the order of requests. */
  ghost predicate Valid(r: Resource)
  {
    && r.capacity >= 1
    && |r.users| <= r.capacity
    && NoDups(r.users) && NoDups(r.queue)
    && (forall c :: c in r.queue ==> c !in r.users)
    && r.requested == r.admitted + r.queue
  }

  function NewResource(capacity: nat): (r: Resource)
    requires capacity >= 1
    ensures Valid(r) && r.capacity == capacity
    ensures r.users == [] && r.queue == [] && r.requested == []
  {
    Resource(capacity, [], [], [], [])
  }

  /** One granting pass: the head of the queue gets a slot if one is free.
      Returns the new state and the car granted, if any. */
  function TriggerPut(r: Resource): (p: (Resource, Option<nat>))
    ensures Valid(r) ==> Valid(p.0)
    ensures p.0.capacity == r.capacity
    ensures p.1.Some? <==> (r.queue != [] && |r.users| < r.capacity)
    ensures p.1.Some? ==>
      && p.1.value == r.queue[0]
      && p.0.queue == r.queue[1..]
      && p.0.users == r.users + [r.queue[0]]
      && p.0.requested == r.requested
      && p.0.admitted == r.admitted + [r.queue[0]]
    ensures p.1.None? ==> p.0 == r
    ensures forall x :: x in p.0.users <==> x in r.users || p.1 == Some(x)
    ensures Valid(r) ==> forall x :: x in p.0.queue <==> x in r.queue && p.1 != Some(x)
  {
    if r.queue != [] && |r.users| < r.capacity then
      var c := r.queue[0];
      assert r.requested == r.admitted + r.queue ==> r.requested == (r.admitted + [c]) + r.queue[1..];
      assert Valid(r) ==> c !in r.users;
      (r.(users := r.users + [c], queue := r.queue[1..], admitted := r.admitted + [c]), Some(c))
    else
      (r, None)
  }

  /** Car c neither holds nor waits for a slot here. */
  predicate Absent(r: Resource, c: nat)
  {
    c !in r.users && c !in r.queue
  }

  /** Car c asks for a slot: it joins the back of the queue, then one granting
      pass runs. The car granted is the head of the queue, which is c itself
      only when nobody was waiting before it. */
  function Request(r: Resource, c: nat): (p: (Resource, Option<nat>))
    ensures Valid(r) && Absent(r, c) ==> Valid(p.0)
    ensures p.0.capacity == r.capacity
    ensures p.0.requested == r.requested + [c]
    ensures p.1.Some? <==> |r.users| < r.capacity
    ensures p.1.Some? ==> p.1.value in r.queue || p.1.value == c
    ensures p.1.Some? ==> p.1.value == (r.queue + [c])[0] && p.0.users == r.users + [p.1.value]
                          && p.0.queue == (r.queue + [c])[1..]
    ensures p.1.None? ==> p.0.users == r.users && p.0.queue == r.queue + [c]
    ensures forall x :: x in p.0.users <==> x in r.users || p.1 == Some(x)
    ensures Valid(r) && Absent(r, c) ==>
      && (p.1 == Some(c) <==> (r.queue == [] && |r.users| < r.capacity))
      && (forall x :: x in p.0.queue <==> (x in r.queue || x == c) && p.1 != Some(x))
  {
    var r1 := r.(queue := r.queue + [c], requested := r.requested + [c]);
    assert Valid(r) && Absent(r, c) ==> Valid(r1) by {
      if Valid(r) && Absent(r, c) {
        NoDupsAppend(r.queue, c);
      }
    }
    TriggerPut(r1)
  }

  /** The holder c gives its slot back; waiting cars are untouched until the
      next granting pass. */
  function Release(r: Resource, c: nat): (r': Resource)
    ensures Valid(r) ==> Valid(r')
    ensures r'.capacity == r.capacity
    ensures r'.queue == r.queue && r'.requested == r.requested && r'.admitted == r.admitted
    ensures c in r.users ==> |r'.users| == |r.users| - 1
    ensures Valid(r) ==> c !in r'.users && forall x :: x in r'.users <==> x in r.users && x != c
  {
    r.(users := RemoveFirst(r.users, c))
  }

  /** Whatever sequence of requests, releases and granting passes, slots are
      granted in the order they were requested: the admitted cars are exactly
      a prefix of the requests. */
  lemma AdmittedIsPrefixOfRequested(r: Resource)
    requires Valid(r)
    ensures |r.admitted| <= |r.requested| && r.admitted == r.requested[..|r.admitted|]
  {
  }
}
