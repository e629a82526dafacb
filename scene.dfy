/**
 * The scene: objects grouped by their dynamic type, one pipeline state per
 * type. Objects, types and pipeline states are opaque ids; the pipeline
 * state a type's first object creates is an input. The scene's map is
 * unordered, so every walk over it takes the visiting order as an input:
 * each key once, in any order.
 */
module Scenes {

  /** One `AddObject` call: the object and its dynamic type. */
  datatype Entry = Entry(Object: nat, Type: nat)

  /** A type's pipeline state and its objects in the order they were added. */
  datatype RenderGroup = RenderGroup(PipelineStateObject: nat, Objects: seq<nat>)

  /** What `Draw` records on the command list. */
  datatype Command = SetPipelineState(PipelineState: nat) | DrawObject(Object: nat)

  /** The objects of type `t`, in the order they were added. */
  function OfType(Added: seq<Entry>, t: nat): seq<nat> {
    if Added == [] then []
    else OfType(Added[..|Added| - 1], t)
         + (if Added[|Added| - 1].Type == t then [Added[|Added| - 1].Object] else [])
  }

  /** The objects added, in order. */
  function ObjectsOf(Added: seq<Entry>): (r: seq<nat>)
    ensures |r| == |Added|
  {
    if Added == [] then [] else ObjectsOf(Added[..|Added| - 1]) + [Added[|Added| - 1].Object]
  }

  /** The types added. */
  function TypesOf(Added: seq<Entry>): set<nat> {
    set i | 0 <= i < |Added| :: Added[i].Type
  }

  /** `Order` visits every key of the map exactly once. */
  predicate IsVisitOrder(Order: seq<nat>, Keys: set<nat>) {
    Distinct(Order)
    && (forall t :: t in Keys ==> t in Order) && (forall k :: 0 <= k < |Order| ==> Order[k] in Keys)
  }

  /** The objects of the groups, group after group in `Order`. */
  function Flatten(Groups: map<nat, RenderGroup>, Order: seq<nat>): seq<nat> {
    if Order == [] then []
    else Flatten(Groups, Order[..|Order| - 1])
         + (if Order[|Order| - 1] in Groups then Groups[Order[|Order| - 1]].Objects else [])
  }

  /** The commands `Draw` records: per group its pipeline state, then a draw per object. */
  function DrawCommands(Groups: map<nat, RenderGroup>, Order: seq<nat>): seq<Command> {
    if Order == [] then []
    else DrawCommands(Groups, Order[..|Order| - 1])
         + (if Order[|Order| - 1] in Groups then GroupCommands(Groups[Order[|Order| - 1]]) else [])
  }

  /** One group's commands. */
  function GroupCommands(Group: RenderGroup): (r: seq<Command>)
    ensures |r| == |Group.Objects| + 1
  {
    [SetPipelineState(Group.PipelineStateObject)] + DrawsOf(Group.Objects)
  }

  /** One draw command per object. */
  function DrawsOf(Objects: seq<nat>): (r: seq<Command>)
    ensures |r| == |Objects|
    ensures forall k :: 0 <= k < |Objects| ==> r[k] == DrawObject(Objects[k])
  {
    if Objects == [] then [] else DrawsOf(Objects[..|Objects| - 1]) + [DrawObject(Objects[|Objects| - 1])]
  }

  /** A group after `ReloadShaders`: a non-empty group takes the state rebuilt from its first object. */
  function Reloaded(Group: RenderGroup, Rebuilt: nat -> nat): RenderGroup {
    if |Group.Objects| > 0 then Group.(PipelineStateObject := Rebuilt(Group.Objects[0])) else Group
  }

  /** The groups with those in `Done` reloaded and the rest as they were. */
  ghost function ReloadedOn(Groups: map<nat, RenderGroup>, Done: set<nat>, Rebuilt: nat -> nat): map<nat, RenderGroup> {
    map t | t in Groups :: if t in Done then Reloaded(Groups[t], Rebuilt) else Groups[t]
  }

  /** Reloading one more group is one map update; reloading a group twice is reloading it once. */
  lemma ReloadStep(Groups: map<nat, RenderGroup>, Done: set<nat>, Rebuilt: nat -> nat, t: nat)
    requires t in Groups
    ensures var Now := ReloadedOn(Groups, Done, Rebuilt);
      ReloadedOn(Groups, Done + {t}, Rebuilt) == Now[t := Reloaded(Now[t], Rebuilt)]
  {
    var Now := ReloadedOn(Groups, Done, Rebuilt);
    assert Reloaded(Now[t], Rebuilt) == Reloaded(Groups[t], Rebuilt);
  }

  /** Once the visit order has been walked, every group is reloaded. */
  lemma ReloadedAll(Groups: map<nat, RenderGroup>, Done: set<nat>, Rebuilt: nat -> nat, Order: seq<nat>)
    requires IsVisitOrder(Order, Groups.Keys)
    requires forall k :: 0 <= k < |Order| ==> Order[k] in Done
    ensures ReloadedOn(Groups, Done, Rebuilt).Keys == Groups.Keys
    ensures forall t :: t in Groups ==> ReloadedOn(Groups, Done, Rebuilt)[t] == Reloaded(Groups[t], Rebuilt)
  {
    forall t | t in Groups ensures t in Done {
      assert t in Order;
      var k :| 0 <= k < |Order| && Order[k] == t;
    }
  }

  class Scene {
    var RenderGroups: map<nat, RenderGroup>
    /** Every `AddObject` call so far. */
    ghost var Added: seq<Entry>

    /** There is a group per type added, holding that type's objects in the order they were added. */
    ghost predicate Valid()
      reads this
    {
      RenderGroups.Keys == TypesOf(Added)
      && forall t :: t in RenderGroups ==> RenderGroups[t].Objects == OfType(Added, t)
    }

    /** An empty scene. */
    constructor()
      ensures Valid() && RenderGroups == map[] && Added == []
    {
      RenderGroups := map[];
      Added := [];
    }

    /**
     * `AddObject`: an object of a type already present joins the end of its
     * group; the first object of a type starts a group with the pipeline
     * state it creates, `Created`.
     */
    method AddObject(Object: nat, Type: nat, Created: nat)
      requires Valid()
      modifies this
      ensures Valid() && Added == old(Added) + [Entry(Object, Type)]
      ensures Type in old(RenderGroups) ==>
        RenderGroups == old(RenderGroups)[Type := old(RenderGroups)[Type].(Objects := old(RenderGroups)[Type].Objects + [Object])]
      ensures Type !in old(RenderGroups) ==>
        RenderGroups == old(RenderGroups)[Type := RenderGroup(Created, [Object])]
    {
      ghost var Before := Added;
      Added := Added + [Entry(Object, Type)];
      assert Added[..|Added| - 1] == Before;
      assert TypesOf(Added) == TypesOf(Before) + {Type} by {
        forall u | u in TypesOf(Added) ensures u in TypesOf(Before) + {Type} {
          var i :| 0 <= i < |Added| && Added[i].Type == u;
          if i < |Before| {
            assert Before[i].Type == u;
          }
        }
        forall u | u in TypesOf(Before) ensures u in TypesOf(Added) {
          var i :| 0 <= i < |Before| && Before[i].Type == u;
          assert Added[i].Type == u;
        }
        assert Added[|Before|].Type == Type;
      }
      if Type in RenderGroups {
        var Group := RenderGroups[Type];
        RenderGroups := RenderGroups[Type := Group.(Objects := Group.Objects + [Object])];
      } else {
        OfTypeAbsent(Before, Type);
        RenderGroups := RenderGroups[Type := RenderGroup(Created, [Object])];
      }
    }

    /**
     * `ReloadShaders`: each non-empty group takes the pipeline state rebuilt
     * from its first object; objects and keys stay. `Rebuilt` gives the
     * state an object creates after its shaders are recompiled.
     */
    method ReloadShaders(Order: seq<nat>, Rebuilt: nat -> nat)
      requires Valid() && IsVisitOrder(Order, RenderGroups.Keys)
      modifies this
      ensures Valid() && Added == old(Added) && RenderGroups.Keys == old(RenderGroups).Keys
      ensures forall t :: t in RenderGroups ==> RenderGroups[t] == Reloaded(old(RenderGroups)[t], Rebuilt)
    {
      ghost var Groups := RenderGroups;
      ghost var Done: set<nat> := {};
      var i := 0;
      while i < |Order|
        invariant 0 <= i <= |Order| && Added == old(Added) && Done <= Groups.Keys
        invariant forall k :: 0 <= k < i ==> Order[k] in Done
        invariant RenderGroups == ReloadedOn(Groups, Done, Rebuilt)
      {
        var t := Order[i];
        ReloadStep(Groups, Done, Rebuilt, t);
        ReloadGroup(t, Rebuilt);
        Done := Done + {t};
        i := i + 1;
      }
      ReloadedAll(Groups, Done, Rebuilt, Order);
    }

    /** One step of `ReloadShaders`: a non-empty group takes the state rebuilt from its first object. */
    method ReloadGroup(t: nat, Rebuilt: nat -> nat)
      requires t in RenderGroups
      modifies this
      ensures Added == old(Added)
      ensures RenderGroups == old(RenderGroups)[t := Reloaded(old(RenderGroups)[t], Rebuilt)]
    {
      var Group := RenderGroups[t];
      if |Group.Objects| > 0 {
        RenderGroups := RenderGroups[t := Group.(PipelineStateObject := Rebuilt(Group.Objects[0]))];
      }
    }

    /** `Update`: the objects updated, group after group in the visiting order. */
    method Update(Order: seq<nat>) returns (Updated: seq<nat>)
      requires IsVisitOrder(Order, RenderGroups.Keys)
      ensures Updated == Flatten(RenderGroups, Order)
    {
      Updated := [];
      var i := 0;
      while i < |Order|
        invariant 0 <= i <= |Order| && Updated == Flatten(RenderGroups, Order[..i])
      {
        Updated := UpdateGroup(Updated, RenderGroups[Order[i]].Objects);
        assert Order[..i + 1][..i] == Order[..i];
        i := i + 1;
      }
      assert Order[..i] == Order;
    }

    /** `Draw`: per group in the visiting order, its pipeline state, then each of its objects. */
    method Draw(Order: seq<nat>) returns (Commands: seq<Command>)
      requires IsVisitOrder(Order, RenderGroups.Keys)
      ensures Commands == DrawCommands(RenderGroups, Order)
    {
      Commands := [];
      var i := 0;
      while i < |Order|
        invariant 0 <= i <= |Order| && Commands == DrawCommands(RenderGroups, Order[..i])
      {
        DrawCommandsStep(RenderGroups, Order, i);
        Commands := DrawGroup(Commands, RenderGroups[Order[i]]);
        i := i + 1;
      }
      assert Order[..i] == Order;
    }
  }

  /** The commands for one more group of the order follow those for the groups before it. */
  lemma DrawCommandsStep(Groups: map<nat, RenderGroup>, Order: seq<nat>, i: nat)
    requires i < |Order| && Order[i] in Groups
    ensures DrawCommands(Groups, Order[..i + 1]) == DrawCommands(Groups, Order[..i]) + GroupCommands(Groups[Order[i]])
  {
    assert Order[..i + 1][..i] == Order[..i];
  }

  /** The inner loop of `Update`: each object of one group, in order, after those already updated. */
  method UpdateGroup(Updated: seq<nat>, Objects: seq<nat>) returns (r: seq<nat>)
    ensures r == Updated + Objects
  {
    r := Updated;
    var j := 0;
    while j < |Objects|
      invariant 0 <= j <= |Objects| && r == Updated + Objects[..j]
    {
      r := r + [Objects[j]];
      assert Objects[..j + 1] == Objects[..j] + [Objects[j]];
      j := j + 1;
    }
    assert Objects[..j] == Objects;
  }

  /** The body of `Draw`'s loop: the group's pipeline state, then a draw command per object, in order. */
  method DrawGroup(Commands: seq<Command>, Group: RenderGroup) returns (r: seq<Command>)
    ensures r == Commands + GroupCommands(Group)
  {
    var Objects := Group.Objects;
    r := Commands + [SetPipelineState(Group.PipelineStateObject)];
    var j := 0;
    while j < |Objects|
      invariant 0 <= j <= |Objects| && r == Commands + [SetPipelineState(Group.PipelineStateObject)] + DrawsOf(Objects[..j])
    {
      r := r + [DrawObject(Objects[j])];
      assert Objects[..j + 1][..j] == Objects[..j];
      j := j + 1;
    }
    assert Objects[..j] == Objects;
  }

  /** A type never added has no objects. */
  lemma {:induction false} OfTypeAbsent(Added: seq<Entry>, t: nat)
    requires t !in TypesOf(Added)
    ensures OfType(Added, t) == []
  {
    if Added != [] {
      var Front := Added[..|Added| - 1];
      assert TypesOf(Front) <= TypesOf(Added) by {
        forall u | u in TypesOf(Front) ensures u in TypesOf(Added) {
          var i :| 0 <= i < |Front| && Front[i].Type == u;
          assert Added[i].Type == u;
        }
      }
      assert Added[|Added| - 1].Type in TypesOf(Added);
      OfTypeAbsent(Front, t);
    }
  }

  /** A type that was added has at least one object: no group of a valid scene is empty. */
  lemma {:induction false} OfTypePresent(Added: seq<Entry>, t: nat)
    requires t in TypesOf(Added)
    ensures |OfType(Added, t)| > 0
  {
    var Front := Added[..|Added| - 1];
    if Added[|Added| - 1].Type != t {
      var i :| 0 <= i < |Added| && Added[i].Type == t;
      assert Front[i].Type == t;
      OfTypePresent(Front, t);
    }
  }

  /** Every group of a valid scene is non-empty, so `ReloadShaders` rebuilds every group. */
  lemma ReloadRebuildsEveryGroup(Groups: map<nat, RenderGroup>, Added: seq<Entry>, Rebuilt: nat -> nat, t: nat)
    requires Groups.Keys == TypesOf(Added) && t in Groups && Groups[t].Objects == OfType(Added, t)
    ensures |Groups[t].Objects| > 0
    ensures Reloaded(Groups[t], Rebuilt).PipelineStateObject == Rebuilt(Groups[t].Objects[0])
  {
    OfTypePresent(Added, t);
  }

  /** The types' objects, type after type in `Order`. */
  function Grouped(Added: seq<Entry>, Order: seq<nat>): seq<nat> {
    if Order == [] then [] else Grouped(Added, Order[..|Order| - 1]) + OfType(Added, Order[|Order| - 1])
  }

  /** In a valid scene, walking the groups is walking the types' objects. */
  lemma {:induction false} FlattenIsGrouped(Groups: map<nat, RenderGroup>, Added: seq<Entry>, Order: seq<nat>)
    requires forall t :: t in Groups ==> Groups[t].Objects == OfType(Added, t)
    requires forall k :: 0 <= k < |Order| ==> Order[k] in Groups
    ensures Flatten(Groups, Order) == Grouped(Added, Order)
  {
    if Order != [] {
      FlattenIsGrouped(Groups, Added, Order[..|Order| - 1]);
    }
  }

  /** How often `t` occurs in `Order`. */
  function Count(Order: seq<nat>, t: nat): nat {
    if Order == [] then 0 else Count(Order[..|Order| - 1], t) + (if Order[|Order| - 1] == t then 1 else 0)
  }

  /** `n` copies of one object. */
  function Copies(Object: nat, n: nat): multiset<nat> {
    if n == 0 then multiset{} else Copies(Object, n - 1) + multiset{Object}
  }

  /** One more `AddObject` adds its object to the walk once per visit of its type. */
  lemma {:induction false} GroupedSnoc(Added: seq<Entry>, x: Entry, Order: seq<nat>)
    ensures multiset(Grouped(Added + [x], Order))
         == multiset(Grouped(Added, Order)) + Copies(x.Object, Count(Order, x.Type))
  {
    if Order != [] {
      var Front := Order[..|Order| - 1];
      var Last := Order[|Order| - 1];
      GroupedSnoc(Added, x, Front);
      OfTypeSnoc(Added, x, Last);
      CopiesStep(x, Order);
      ConcatGrows(Grouped(Added, Front), Grouped(Added + [x], Front), OfType(Added, Last),
        Copies(x.Object, Count(Front, x.Type)), if x.Type == Last then [x.Object] else []);
    }
  }

  /** A visit of the entry's type adds one copy of its object. */
  lemma CopiesStep(x: Entry, Order: seq<nat>)
    requires Order != []
    ensures Copies(x.Object, Count(Order, x.Type))
         == Copies(x.Object, Count(Order[..|Order| - 1], x.Type))
            + multiset(if x.Type == Order[|Order| - 1] then [x.Object] else [])
  {
  }

  /** Two growing parts make a whole that grows by both. */
  lemma ConcatGrows(G0: seq<nat>, G1: seq<nat>, O0: seq<nat>, Rest: multiset<nat>, Extra: seq<nat>)
    requires multiset(G1) == multiset(G0) + Rest
    ensures multiset(G1 + (O0 + Extra)) == multiset(G0 + O0) + Rest + multiset(Extra)
  {
  }

  /** `OfType` after one more entry. */
  lemma OfTypeSnoc(Added: seq<Entry>, x: Entry, t: nat)
    ensures OfType(Added + [x], t) == OfType(Added, t) + (if x.Type == t then [x.Object] else [])
  {
    assert (Added + [x])[..|Added|] == Added;
  }

  /** The visit order names no type twice. */
  predicate Distinct(Order: seq<nat>) {
    forall i, j :: 0 <= i < j < |Order| ==> Order[i] != Order[j]
  }

  /** In a distinct order, every key it names occurs exactly once. */
  lemma {:induction false} CountInDistinct(Order: seq<nat>, t: nat)
    requires Distinct(Order)
    ensures Count(Order, t) == if t in Order then 1 else 0
  {
    if Order != [] {
      var Front := Order[..|Order| - 1];
      assert Distinct(Front);
      assert Order == Front + [Order[|Order| - 1]];
      if Order[|Order| - 1] == t {
        assert t !in Front by {
          forall k | 0 <= k < |Front| ensures Front[k] != t {
            assert Order[k] != Order[|Order| - 1];
          }
        }
      }
      CountInDistinct(Front, t);
    }
  }

  /**
   * A walk that visits every type added, each once, yields every added
   * object exactly as often as it was added.
   */
  lemma {:induction false} GroupedIsPermutation(Added: seq<Entry>, Order: seq<nat>)
    requires forall t :: t in TypesOf(Added) ==> Count(Order, t) == 1
    ensures multiset(Grouped(Added, Order)) == multiset(ObjectsOf(Added))
  {
    if Added == [] {
      GroupedEmpty(Order);
    } else {
      var Front := Added[..|Added| - 1];
      var x := Added[|Added| - 1];
      assert Added == Front + [x];
      forall t | t in TypesOf(Front) ensures Count(Order, t) == 1 {
        var i :| 0 <= i < |Front| && Front[i].Type == t;
        assert Added[i].Type == t;
      }
      GroupedIsPermutation(Front, Order);
      GroupedSnoc(Front, x, Order);
      assert x.Type in TypesOf(Added);
      assert Copies(x.Object, 1) == multiset{x.Object};
    }
  }

  /** Nothing added, nothing walked. */
  lemma {:induction false} GroupedEmpty(Order: seq<nat>)
    ensures Grouped([], Order) == []
  {
    if Order != [] {
      GroupedEmpty(Order[..|Order| - 1]);
    }
  }

  /** `Update` updates every object exactly as often as it was added to the scene. */
  lemma UpdateVisitsEachAddOnce(S: Scene, Order: seq<nat>)
    requires S.Valid() && IsVisitOrder(Order, S.RenderGroups.Keys)
    ensures multiset(Flatten(S.RenderGroups, Order)) == multiset(ObjectsOf(S.Added))
  {
    FlattenIsGrouped(S.RenderGroups, S.Added, Order);
    forall t | t in TypesOf(S.Added) ensures Count(Order, t) == 1 {
      CountInDistinct(Order, t);
    }
    GroupedIsPermutation(S.Added, Order);
  }

  /** `Draw` records one pipeline-state change per group and one draw per object. */
  lemma {:induction false} DrawCommandCount(Groups: map<nat, RenderGroup>, Order: seq<nat>)
    requires forall k :: 0 <= k < |Order| ==> Order[k] in Groups
    ensures |DrawCommands(Groups, Order)| == |Order| + |Flatten(Groups, Order)|
  {
    if Order != [] {
      DrawCommandCount(Groups, Order[..|Order| - 1]);
    }
  }
}
