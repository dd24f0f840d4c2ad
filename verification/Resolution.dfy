/** How a handle picks one value out of those cached for its providers. */
module Resolution {
  import opened Variants

  /** The position of the newest non-null value, the earliest of several equally new ones,
      or -1 if every value is null. */
  function Latest(vs: seq<TimedValue>): (k: int)
    ensures -1 <= k < |vs|
    ensures k == -1 <==> forall j | 0 <= j < |vs| :: vs[j].value == Null
    ensures k >= 0 ==>
      && vs[k].value != Null
      && (forall j | 0 <= j < |vs| && vs[j].value != Null :: vs[j].time <= vs[k].time)
      && (forall j | 0 <= j < k && vs[j].value != Null :: vs[j].time < vs[k].time)
  {
    if |vs| == 0 then -1
    else
      var n := |vs| - 1;
      var k := Latest(vs[..n]);
      if vs[n].value == Null then k
      else if k == -1 || vs[k].time < vs[n].time then n
      else k
  }

  function Resolve(vs: seq<TimedValue>): Variant {
    var k := Latest(vs);
    if k == -1 then Null else vs[k].value
  }

  /** The loop of onValueChanged, with its `found` and `latest` variables. */
  method PickLatest(vs: seq<TimedValue>) returns (v: Variant)
    ensures v == Resolve(vs)
  {
    var found := false;
    var latest := TimedValue(Null, 0);
    var i := 0;
    while i < |vs|
      invariant 0 <= i <= |vs|
      invariant found <==> Latest(vs[..i]) != -1
      invariant found ==> latest == vs[Latest(vs[..i])]
    {
      assert vs[..i + 1][..i] == vs[..i];
      var current := vs[i];
      if current.value != Null {
        if !found {
          found, latest := true, current;
        } else if latest.time < current.time {
          latest := current;
        }
      }
      i := i + 1;
    }
    assert vs[..i] == vs;
    v := if found then latest.value else Null;
  }

  ghost predicate DistinctTimes(vs: seq<TimedValue>) {
    forall i, j | 0 <= i < j < |vs| && vs[i].value != Null && vs[j].value != Null ::
      vs[i].time != vs[j].time
  }

  /** With distinct time stamps the order in which the providers are listed is irrelevant. */
  lemma OrderIsIrrelevant(vs: seq<TimedValue>, ws: seq<TimedValue>)
    requires multiset(vs) == multiset(ws) && DistinctTimes(vs)
    ensures Resolve(vs) == Resolve(ws)
  {
    var k, l := Latest(vs), Latest(ws);
    if k >= 0 {
      assert vs[k] in multiset(vs);
      var j :| 0 <= j < |ws| && ws[j] == vs[k];
    }
    if l >= 0 {
      assert ws[l] in multiset(ws);
      var i :| 0 <= i < |vs| && vs[i] == ws[l];
    }
  }

  /** Any non-null value that is at least as new as every different one is the resolved value. */
  lemma NewestWins(vs: seq<TimedValue>, p: int)
    requires 0 <= p < |vs| && vs[p].value != Null
    requires forall j | 0 <= j < |vs| && vs[j].value != Null && vs[j].value != vs[p].value ::
      vs[j].time < vs[p].time
    ensures Resolve(vs) == vs[p].value
  {
    var k := Latest(vs);
    assert vs[p].time <= vs[k].time;
  }
}
