/**
 * `DashboardViewModel`: the store of spaces and reservations shared by the
 * screens. It keeps the current user's reservations, the administrator's
 * list of all active reservations, the administrator flag, and statistics
 * that count reservations per space name.
 *
 * Every coroutine the view model launches is modelled as running at once,
 * to completion, in the order it is launched. The clock read by the mock
 * loaders is a parameter (`now`).
 */
module Dashboard {
  import opened Wrappers
  import opened Model

  // ---------------------------------------------------------------------------
  // Fixed data of the mock loaders

  const OneDayMillis := 86400000
  const TwoDaysMillis := 172800000

  /** `loadMockSpaces`: the six spaces shown at start-up. */
  const MockSpaces: seq<Space> := [
    Space("1", "Salón Social", "Amplio espacio para eventos sociales y reuniones", 50, true, SalonSocial, None),
    Space("2", "Zona BBQ", "Área equipada para asados y reuniones al aire libre", 20, true, ZonaBbq, None),
    Space("3", "Gimnasio", "Espacio con equipos modernos para ejercicio", 15, true, Gimnasio, None),
    Space("4", "Sauna", "Área de relajación y bienestar", 6, true, Sauna, None),
    Space("5", "Cancha de Tenis", "Cancha profesional para práctica y competición", 4, true, CanchaTenis, None),
    Space("6", "Cancha Sintética", "Campo de fútbol con césped artificial", 14, true, CanchaSintetica, None)
  ]

  /** `loadMockReservations`: two bookings of "current_user", one and two days ahead. */
  function MockReservations(now: Timestamp): seq<Reservation> {
    [ Reservation("1", "1", "Salón Social", "current_user", now + OneDayMillis, DefaultStatus),
      Reservation("2", "2", "Zona BBQ", "current_user", now + TwoDaysMillis, DefaultStatus) ]
  }

  /** `loadAllActiveReservations`: the bookings of other users an administrator sees. */
  function MockAllActiveReservations(now: Timestamp): seq<Reservation> {
    [ Reservation("3", "3", "Gimnasio", "other_user1", now + OneDayMillis, DefaultStatus),
      Reservation("4", "1", "Salón Social", "other_user2", now + TwoDaysMillis, DefaultStatus) ]
  }

  // ---------------------------------------------------------------------------
  // deleteReservation: removeIf { it.id == id }

  /** The list without the reservations whose id is `id`, in the same order. */
  function RemoveById(rs: seq<Reservation>, id: string): (r: seq<Reservation>)
    ensures forall x :: x in r <==> x in rs && x.id != id
    ensures (forall k | 0 <= k < |rs| :: rs[k].id != id) ==> r == rs
  {
    if rs == [] then []
    else (if rs[0].id == id then [] else [rs[0]]) + RemoveById(rs[1..], id)
  }

  /** Removing distributes over concatenation, so the reservations that stay
      keep their relative order. */
  lemma {:induction false} RemoveByIdKeepsOrder(a: seq<Reservation>, b: seq<Reservation>, id: string)
    ensures RemoveById(a + b, id) == RemoveById(a, id) + RemoveById(b, id)
  {
    if a != [] {
      assert (a + b)[1..] == a[1..] + b;
      RemoveByIdKeepsOrder(a[1..], b, id);
    } else {
      assert a + b == b;
    }
  }

  /** Deleting the same id twice is deleting it once. */
  lemma {:induction false} RemoveByIdIdempotent(rs: seq<Reservation>, id: string)
    ensures RemoveById(RemoveById(rs, id), id) == RemoveById(rs, id)
  {
    var r := RemoveById(rs, id);
    forall k | 0 <= k < |r| ensures r[k].id != id {
      assert r[k] in r;
    }
  }

  // ---------------------------------------------------------------------------
  // modifyReservation: indexOfFirst { it.id == id }, then copy(dateTime = d)

  /** `k` is the first position holding a reservation with id `id`. */
  ghost predicate IsFirstWithId(rs: seq<Reservation>, k: int, id: string) {
    0 <= k < |rs| && rs[k].id == id && forall j | 0 <= j < k :: rs[j].id != id
  }

  /** `indexOfFirst { it.id == id }`: the first position with that id, or -1. */
  function IndexOfFirstId(rs: seq<Reservation>, id: string): (r: int)
    ensures r == -1 <==> forall k | 0 <= k < |rs| :: rs[k].id != id
    ensures r != -1 ==> IsFirstWithId(rs, r, id)
  {
    if rs == [] then -1
    else if rs[0].id == id then 0
    else
      var k := IndexOfFirstId(rs[1..], id);
      if k == -1 then -1 else k + 1
  }

  /** The list after `modifyReservation(id, d)`: the first reservation with
      that id gets date `d` and keeps every other field; nothing else changes. */
  function WithDateTime(rs: seq<Reservation>, id: string, d: Timestamp): (r: seq<Reservation>)
    ensures |r| == |rs|
    ensures forall k | 0 <= k < |rs| ::
              if IsFirstWithId(rs, k, id) then r[k] == rs[k].(dateTime := d) else r[k] == rs[k]
    ensures (forall k | 0 <= k < |rs| :: rs[k].id != id) ==> r == rs
  {
    var i := IndexOfFirstId(rs, id);
    if i == -1 then rs
    else
      assert forall k | 0 <= k < |rs| && k != i :: !IsFirstWithId(rs, k, id);
      rs[i := rs[i].(dateTime := d)]
  }

  // ---------------------------------------------------------------------------
  // calculateSpaceStatistics

  /** `stats[name] = (stats[name] ?: 0) + 1` */
  function Bump(stats: map<string, int>, name: string): map<string, int> {
    stats[name := (if name in stats then stats[name] else 0) + 1]
  }

  /** The statistics after the `forEach` over `rs`, one `Bump` per reservation. */
  function Tally(rs: seq<Reservation>): map<string, int> {
    if rs == [] then map[] else Bump(Tally(rs[..|rs| - 1]), rs[|rs| - 1].spaceName)
  }

  /** The space names of the reservations, in order. */
  function SpaceNames(rs: seq<Reservation>): (names: seq<string>)
    ensures |names| == |rs|
  {
    seq(|rs|, i requires 0 <= i < |rs| => rs[i].spaceName)
  }

  /** The statistics have a key for exactly the names that occur, and each
      count is the number of reservations with that name. */
  lemma {:induction false} TallyCounts(rs: seq<Reservation>)
    ensures Tally(rs).Keys == set r | r in rs :: r.spaceName
    ensures forall n | n in Tally(rs) :: Tally(rs)[n] == multiset(SpaceNames(rs))[n]
  {
    if rs != [] {
      var p, x := rs[..|rs| - 1], rs[|rs| - 1];
      TallyCounts(p);
      assert rs == p + [x];
      assert SpaceNames(rs) == SpaceNames(p) + [x.spaceName];
      assert forall r :: r in rs <==> r in p || r == x;
    }
  }

  /** Sum of the values of a map. */
  ghost function MapSum(m: map<string, int>): int
    decreases |m.Keys|
  {
    if m.Keys == {} then 0
    else
      var k := SomeKey(m);
      assert (m - {k}).Keys == m.Keys - {k};
      m[k] + MapSum(m - {k})
  }

  ghost function SomeKey(m: map<string, int>): (k: string)
    requires m.Keys != {}
    ensures k in m
  {
    var k :| k in m; k
  }

  /** `MapSum` may take out any key first. */
  lemma {:induction false} MapSumRemove(m: map<string, int>, k: string)
    requires k in m
    ensures MapSum(m) == m[k] + MapSum(m - {k})
    decreases |m.Keys|
  {
    var j := SomeKey(m);
    if j != k {
      assert (m - {j}).Keys == m.Keys - {j};
      assert (m - {k}).Keys == m.Keys - {k};
      MapSumRemove(m - {j}, k);
      MapSumRemove(m - {k}, j);
      assert m - {j} - {k} == m - {k} - {j};
    }
  }

  lemma MapSumBump(m: map<string, int>, name: string)
    ensures MapSum(Bump(m, name)) == MapSum(m) + 1
  {
    var b := Bump(m, name);
    MapSumRemove(b, name);
    if name in m {
      MapSumRemove(m, name);
      assert b - {name} == m - {name};
    } else {
      assert b - {name} == m;
    }
  }

  /** The counts add up to the number of reservations counted. */
  lemma {:induction false} TallySum(rs: seq<Reservation>)
    ensures MapSum(Tally(rs)) == |rs|
  {
    if rs != [] {
      TallySum(rs[..|rs| - 1]);
      MapSumBump(Tally(rs[..|rs| - 1]), rs[|rs| - 1].spaceName);
    }
  }

  /** The `forEach` loop of `calculateSpaceStatistics` over `all`. */
  method CountBySpaceName(all: seq<Reservation>) returns (stats: map<string, int>)
    ensures stats == Tally(all)
  {
    stats := map[];
    var i := 0;
    while i < |all|
      invariant 0 <= i <= |all|
      invariant stats == Tally(all[..i])
    {
      var name := all[i].spaceName;
      stats := stats[name := (if name in stats then stats[name] else 0) + 1];
      assert all[..i + 1][..i] == all[..i];
      i := i + 1;
    }
    assert all[..|all|] == all;
  }

  // ---------------------------------------------------------------------------
  // The view model

  class DashboardViewModel {
    var spaces: seq<Space>
    var reservations: seq<Reservation>
    var isLoading: bool
    var isAdmin: bool
    var allActiveReservations: seq<Reservation>
    var spaceStatistics: map<string, int>

    /** `init`: the `isAdmin` collector sees `false` and does nothing; then
        the mock spaces and the current user's mock reservations are loaded. */
    constructor (now: Timestamp)
      ensures spaces == MockSpaces && reservations == MockReservations(now)
      ensures !isLoading && !isAdmin
      ensures allActiveReservations == [] && spaceStatistics == map[]
    {
      isAdmin := false;
      allActiveReservations := [];
      spaceStatistics := map[];
      isLoading := true;
      spaces := MockSpaces;
      isLoading := false;
      reservations := MockReservations(now);
    }

    /** `setUserRole`, followed by the `isAdmin` collector of `init`. A state
        flow only emits a changed value, so the collector runs when the flag
        turns from false to true: it loads all active reservations and then
        recomputes the statistics. */
    method SetUserRole(admin: bool, now: Timestamp)
      modifies this`isAdmin, this`allActiveReservations, this`spaceStatistics
      ensures isAdmin == admin
      ensures if admin && !old(isAdmin) then
                && allActiveReservations == MockAllActiveReservations(now)
                && spaceStatistics == Tally(reservations + allActiveReservations)
              else
                && allActiveReservations == old(allActiveReservations)
                && spaceStatistics == old(spaceStatistics)
    {
      var changed := isAdmin != admin;
      isAdmin := admin;
      if changed && admin {
        allActiveReservations := MockAllActiveReservations(now);
        CalculateSpaceStatistics();
      }
    }

    /** One role emission seen by `updateAdminStatus`: the flag becomes
        whether the role string is "admin". */
    method UpdateAdminStatus(role: string, now: Timestamp)
      modifies this`isAdmin, this`allActiveReservations, this`spaceStatistics
      ensures isAdmin <==> role == "admin"
      ensures if role == "admin" && !old(isAdmin) then
                && allActiveReservations == MockAllActiveReservations(now)
                && spaceStatistics == Tally(reservations + allActiveReservations)
              else
                && allActiveReservations == old(allActiveReservations)
                && spaceStatistics == old(spaceStatistics)
    {
      SetUserRole(role == "admin", now);
    }

    /** `calculateSpaceStatistics`: counts per space name over the user's
        reservations followed by all active reservations. */
    method CalculateSpaceStatistics()
      modifies this`spaceStatistics
      ensures spaceStatistics == Tally(reservations + allActiveReservations)
    {
      spaceStatistics := CountBySpaceName(reservations + allActiveReservations);
    }

    /** `deleteReservation` */
    method DeleteReservation(reservationId: string)
      modifies this`reservations
      ensures reservations == RemoveById(old(reservations), reservationId)
    {
      reservations := RemoveById(reservations, reservationId);
    }

    /** `modifyReservation`; an unknown id leaves the list as it was. */
    method ModifyReservation(reservationId: string, newDateTime: Timestamp)
      modifies this`reservations
      ensures reservations == WithDateTime(old(reservations), reservationId, newDateTime)
    {
      reservations := WithDateTime(reservations, reservationId, newDateTime);
    }

    /** `addReservation`: appends, and recomputes the statistics only for an
        administrator. */
    method AddReservation(reservation: Reservation)
      modifies this`reservations, this`spaceStatistics
      ensures reservations == old(reservations) + [reservation]
      ensures isAdmin ==> spaceStatistics == Tally(reservations + allActiveReservations)
      ensures !isAdmin ==> spaceStatistics == old(spaceStatistics)
    {
      reservations := reservations + [reservation];
      if isAdmin {
        CalculateSpaceStatistics();
      }
    }
  }

  /** Role gating: as a plain user the store has no other users' bookings
      and no statistics, even after the user books; once the flag turns to
      administrator, the other users' bookings are loaded and counted along
      with the user's. */
  method RoleGatingFlow(now: Timestamp, booking: Reservation)
    returns (userActive: seq<Reservation>, userStats: map<string, int>, adminStats: map<string, int>)
    ensures userActive == [] && userStats == map[]
    ensures adminStats == Tally(MockReservations(now) + [booking] + MockAllActiveReservations(now))
    ensures MapSum(adminStats) == 5
  {
    var store := new DashboardViewModel(now);
    store.AddReservation(booking);
    userActive, userStats := store.allActiveReservations, store.spaceStatistics;
    store.SetUserRole(true, now);
    adminStats := store.spaceStatistics;
    TallySum(MockReservations(now) + [booking] + MockAllActiveReservations(now));
  }
}
