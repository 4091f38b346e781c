/** A person with a name, an age kept within 0 .. 150, and a smoker flag. */
module Persons {

  /** Java's int. */
  newtype int32 = x: int | -0x8000_0000 <= x < 0x8000_0000

  const MinAge: int32 := 0
  const MaxAge: int32 := 150
  const IntMin: int32 := -0x8000_0000
  const IntMax: int32 := 0x7fff_ffff

  /** Whether updateAge accepts the age. */
  predicate ValidAge(age: int32) {
    MinAge <= age <= MaxAge
  }

  /** How a call ends: normally, or with an IllegalArgumentException. */
  datatype Outcome = Ok | IllegalArgument

  /** The age a person has after updateAge(requested) when it had current:
      the request if it is a valid age, otherwise the old age unchanged. */
  function AgeAfterUpdate(current: int32, requested: int32): (r: int32)
    ensures ValidAge(requested) ==> r == requested
    ensures !ValidAge(requested) ==> r == current
    ensures ValidAge(current) ==> ValidAge(r)
  {
    if requested < MinAge || requested > MaxAge then current else requested
  }

  /** The age after a run of updateAge calls, each failed one caught. */
  function AgeAfterUpdates(current: int32, requests: seq<int32>): int32
    decreases |requests|
  {
    if requests == [] then current
    else AgeAfterUpdates(AgeAfterUpdate(current, requests[0]), requests[1..])
  }

  /** Whether some request in the run is a valid age. */
  predicate SomeValid(requests: seq<int32>) {
    exists i :: 0 <= i < |requests| && ValidAge(requests[i])
  }

  /** One more update at the end of a run acts on the age the run left,
      which is how a sequence of updateAge calls reads. */
  lemma {:induction false} AgeAfterUpdatesSnoc(current: int32, requests: seq<int32>, last: int32)
    ensures AgeAfterUpdates(current, requests + [last]) == AgeAfterUpdate(AgeAfterUpdates(current, requests), last)
    decreases |requests|
  {
    if requests == [] {
      assert [] + [last] == [last];
    } else {
      assert (requests + [last])[1..] == requests[1..] + [last];
      AgeAfterUpdatesSnoc(AgeAfterUpdate(current, requests[0]), requests[1..], last);
    }
  }

  /** No run of updates, whatever it asks for, takes a valid age out of range. */
  lemma {:induction false} UpdatesKeepAgeValid(current: int32, requests: seq<int32>)
    requires ValidAge(current)
    ensures ValidAge(AgeAfterUpdates(current, requests))
    decreases |requests|
  {
    if requests != [] {
      UpdatesKeepAgeValid(AgeAfterUpdate(current, requests[0]), requests[1..]);
    }
  }

  /** After a run of updates the age is the last valid request, or the
      starting age when no request was valid. */
  lemma {:induction false} UpdatesEndAtLastValid(current: int32, requests: seq<int32>)
    ensures SomeValid(requests) ==>
      exists i :: 0 <= i < |requests| && ValidAge(requests[i]) && AgeAfterUpdates(current, requests) == requests[i]
        && forall j :: i < j < |requests| ==> !ValidAge(requests[j])
    ensures !SomeValid(requests) ==> AgeAfterUpdates(current, requests) == current
    decreases |requests|
  {
    if requests != [] {
      var next := AgeAfterUpdate(current, requests[0]);
      var rest := requests[1..];
      UpdatesEndAtLastValid(next, rest);
      if SomeValid(rest) {
        var i :| 0 <= i < |rest| && ValidAge(rest[i]) && AgeAfterUpdates(next, rest) == rest[i]
          && forall j :: i < j < |rest| ==> !ValidAge(rest[j]);
        assert requests[i + 1] == rest[i];
        assert forall j :: i + 1 < j < |requests| ==> requests[j] == rest[j - 1];
      } else {
        assert forall j :: 1 <= j < |requests| ==> requests[j] == rest[j - 1];
        if ValidAge(requests[0]) {
          assert forall j :: 0 < j < |requests| ==> !ValidAge(requests[j]);
        }
      }
    }
  }

  /** After a run of valid updates the age is the last value supplied. */
  lemma {:induction false} ValidUpdatesEndAtLast(current: int32, requests: seq<int32>)
    requires requests != []
    requires forall i :: 0 <= i < |requests| ==> ValidAge(requests[i])
    ensures AgeAfterUpdates(current, requests) == requests[|requests| - 1]
  {
    UpdatesEndAtLastValid(current, requests);
    assert SomeValid(requests) by {
      assert ValidAge(requests[0]);
    }
  }

  /** The boundaries: 0, 1, 149 and 150 are accepted; -1, 151, and the
      extreme ints are refused. */
  lemma AgeBoundaries()
    ensures ValidAge(0) && ValidAge(1) && ValidAge(149) && ValidAge(150)
    ensures !ValidAge(-1) && !ValidAge(151) && !ValidAge(IntMin) && !ValidAge(IntMax)
  {
  }

  class Person {
    var name: string
    var age: int32
    var smoker: bool

    /** The class invariant: the age is always in range. */
    ghost predicate Valid()
      reads this
    {
      ValidAge(age)
    }

    /** Person(): age 0, empty name, not a smoker. */
    constructor ()
      ensures Valid()
      ensures age == 0 && name == "" && smoker == false
    {
      age := 0;
      name := "";
      smoker := false;
    }

    /** Person(name, age, smoker): the age goes through updateAge, so an
        out-of-range age throws and no person is made. */
    static method Create(name: string, age: int32, smoker: bool) returns (p: Person?, outcome: Outcome)
      ensures outcome == Ok <==> ValidAge(age)
      ensures outcome == Ok ==>
        p != null && fresh(p) && p.Valid() && p.name == name && p.age == age && p.smoker == smoker
      ensures outcome == IllegalArgument ==> p == null
    {
      var q := new Person();
      outcome := q.UpdateAge(age);
      if outcome == IllegalArgument {
        p := null;
        return;
      }
      q.name := name;
      q.smoker := smoker;
      p := q;
    }

    /** getAge(). */
    method GetAge() returns (a: int32)
      requires Valid()
      ensures a == age && ValidAge(a)
    {
      a := age;
    }

    /** updateAge(age): throws unless 0 <= age <= 150, before assigning;
        only the age ever changes. */
    method UpdateAge(requested: int32) returns (outcome: Outcome)
      requires Valid()
      modifies this`age
      ensures Valid()
      ensures outcome == Ok <==> ValidAge(requested)
      ensures age == AgeAfterUpdate(old(age), requested)
    {
      if requested < MinAge || requested > MaxAge {
        return IllegalArgument;
      }
      age := requested;
      outcome := Ok;
    }
  }

  /** Updating one person to 0, 25, 150 and 1 in turn, reading the age back
      after each update. */
  method UpdateAgeMultipleTimes() returns (seen: seq<int32>)
    ensures seen == [0, 25, 150, 1]
  {
    var p := new Person();
    var o0 := p.UpdateAge(0);
    var a0 := p.GetAge();
    var o1 := p.UpdateAge(25);
    var a1 := p.GetAge();
    var o2 := p.UpdateAge(150);
    var a2 := p.GetAge();
    var o3 := p.UpdateAge(1);
    var a3 := p.GetAge();
    seen := [a0, a1, a2, a3];
  }

  /** A failed update (151 after 30) leaves the age at 30. */
  method InvalidUpdateKeepsAge() returns (before: int32, outcome: Outcome, after: int32)
    ensures before == 30 && outcome == IllegalArgument && after == 30
  {
    var p := new Person();
    var _ := p.UpdateAge(30);
    before := p.GetAge();
    outcome := p.UpdateAge(151);
    after := p.GetAge();
  }

  /** The three-argument constructor accepts ages 0 and 150 and refuses -1
      and 151. */
  method ConstructorBoundaries() returns (low: int32, high: int32, below: Outcome, above: Outcome)
    ensures low == 0 && high == 150 && below == IllegalArgument && above == IllegalArgument
  {
    var p1, o1 := Person.Create("Alice", 0, false);
    low := p1.GetAge();
    var p2, o2 := Person.Create("Bob", 150, true);
    high := p2.GetAge();
    var _, o3 := Person.Create("Charlie", -1, false);
    below := o3;
    var _, o4 := Person.Create("Diana", 151, false);
    above := o4;
  }
}
