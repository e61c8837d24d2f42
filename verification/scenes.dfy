/** Scene.cs and its two concrete scenes: the lists of entities a scene
    holds, and how SingleCubeScene and ArrowFieldScene populate them. */
module Scenes {
  import opened XnaMath
  import opened Exceptions
  import opened Entity
  import opened Cubes
  import XnaExtensions

  /** The in-order subsequence of the objects whose RequiresUpdate is set. */
  function Updatable(objects: seq<Object3D>): (r: seq<Object3D>)
    ensures |r| <= |objects|
    ensures forall o :: o in r ==> o in objects && o.RequiresUpdate
  {
    if objects == [] then []
    else
      var last := objects[|objects| - 1];
      Updatable(objects[..|objects| - 1]) + (if last.RequiresUpdate then [last] else [])
  }

  /** An object is kept iff it is in the list and requires updates. */
  lemma {:induction false} UpdatableMembership(objects: seq<Object3D>, o: Object3D)
    ensures o in Updatable(objects) <==> o in objects && o.RequiresUpdate
  {
    if objects != [] {
      var init := objects[..|objects| - 1];
      assert objects == init + [objects[|objects| - 1]];
      UpdatableMembership(init, o);
    }
  }

  /** Without any object that requires updates, nothing is updatable. */
  lemma {:induction false} NothingUpdatable(objects: seq<Object3D>)
    requires forall k :: 0 <= k < |objects| ==> !objects[k].RequiresUpdate
    ensures Updatable(objects) == []
  {
    if objects != [] {
      NothingUpdatable(objects[..|objects| - 1]);
    }
  }

  /** Scene.RecommandedSceneSettings. */
  class RecommandedSceneSettings {
    var CameraPosition: Vec3
    var ArcBallOriginLocked: bool

    /** Both properties start at their default values. */
    constructor ()
      ensures CameraPosition == Zero && !ArcBallOriginLocked
    {
      CameraPosition := Zero;
      ArcBallOriginLocked := false;
    }
  }

  class Scene {
    var objects: seq<Object3D>
    var updatableObjects: seq<Object3D>
    var Center: Vec3
    const RecommandedSettings: RecommandedSceneSettings

    /** The updatable list is exactly the objects that require updates, in
        the order they were added. */
    ghost predicate Valid()
      reads this
    {
      updatableObjects == Updatable(objects)
    }

    constructor (center: Vec3)
      ensures Valid() && objects == [] && updatableObjects == []
      ensures Center == center
      ensures fresh(RecommandedSettings)
      ensures RecommandedSettings.CameraPosition == Zero && !RecommandedSettings.ArcBallOriginLocked
    {
      objects := [];
      updatableObjects := [];
      Center := center;
      RecommandedSettings := new RecommandedSceneSettings();
    }

    /** The objects whose content is loaded, in turn. */
    method LoadContent() returns (loaded: seq<Object3D>)
      ensures loaded == objects
    {
      loaded := Visit();
    }

    /** Walks the object list once; what each object does on a visit (load
        content, draw) goes to the graphics device. */
    method Visit() returns (visited: seq<Object3D>)
      ensures visited == objects
    {
      visited := [];
      for i := 0 to |objects|
        invariant visited == objects[..i]
      {
        visited := visited + [objects[i]];
      }
    }

    method Clear()
      modifies this`objects, this`updatableObjects
      ensures Valid() && objects == [] && updatableObjects == []
    {
      objects := [];
      updatableObjects := [];
    }

    /** Calls Update on the updatable objects in order. Object3D.Update throws
        for every object, so the first call ends the walk: `updated` is what
        was called, and a non-empty updatable list makes the whole call throw. */
    method Update() returns (updated: seq<Object3D>, outcome: Outcome)
      requires Valid()
      ensures updated <= updatableObjects
      ensures forall o :: o in updated ==> o in objects && o.RequiresUpdate
      ensures outcome.Completed? <==> updatableObjects == []
      ensures outcome.Completed? ==> updated == updatableObjects
      ensures outcome.Threw? ==> updated == updatableObjects[..1] && outcome.error == UpdateNotImplemented
    {
      updated := [];
      outcome := Completed;
      var i := 0;
      while i < |updatableObjects| && outcome.Completed?
        invariant 0 <= i <= |updatableObjects|
        invariant updated == updatableObjects[..i]
        invariant outcome.Completed? ==> i == 0
        invariant outcome.Threw? ==> i == 1 && outcome.error == UpdateNotImplemented
        decreases |updatableObjects| - i
      {
        var o := updatableObjects[i];
        assert o in Updatable(objects);
        updated := updated + [o];
        outcome := o.Update();
        i := i + 1;
      }
    }

    /** The objects drawn, in turn. */
    method Draw() returns (drawn: seq<Object3D>)
      ensures drawn == objects
    {
      drawn := Visit();
    }

    method AddObject(object3D: Object3D)
      requires Valid()
      modifies this`objects, this`updatableObjects
      ensures Valid()
      ensures objects == old(objects) + [object3D]
      ensures updatableObjects == old(updatableObjects) + (if object3D.RequiresUpdate then [object3D] else [])
    {
      objects := objects + [object3D];
      if object3D.RequiresUpdate {
        updatableObjects := updatableObjects + [object3D];
      }
      assert objects[..|objects| - 1] == old(objects);
    }
  }

  /** A scene holding one cube at its centre. */
  class SingleCubeScene {
    const scene: Scene
    const cube: Cube

    ghost predicate Valid()
      reads this, scene, cube, cube.entity
    {
      scene.Valid() && cube.Valid() && scene.objects == [cube.entity]
    }

    constructor (scene: Scene, cube: Cube)
      ensures this.scene == scene && this.cube == cube
    {
      this.scene := scene;
      this.cube := cube;
    }

    /** `new SingleCubeScene(center, cubeWidth)`: a cube of width w on every
        axis at the centre, and no updatable object. The cube's constructor
        throws for an invalid centre. */
    static method Create(xna: Xna, center: Vec3, cubeWidth: real) returns (r: Result<SingleCubeScene>)
      ensures r.Ok? <==> xna.isValid(center)
      ensures r.Err? ==> r.error == InvalidVector
      ensures r.Ok? ==> fresh(r.value) && fresh(r.value.scene) && fresh(r.value.cube) && r.value.Valid()
      ensures r.Ok? ==> r.value.scene.Center == center && r.value.scene.updatableObjects == []
      ensures r.Ok? ==> r.value.cube.entity.Position == center &&
                        r.value.cube.entity.Bounds == Vec3(cubeWidth, cubeWidth, cubeWidth)
      ensures r.Ok? ==> r.value.SuggestedInitialCameraPosition() ==
                        Vec3(center.x, center.y, center.z + 3.0 * cubeWidth)
    {
      var scene := new Scene(center);
      var created := Cube.Create(xna, center, Vec3(cubeWidth, cubeWidth, cubeWidth));
      if created.Err? {
        return Err(created.error);
      }
      var cube := created.value;
      scene.AddObject(cube.entity);
      var s := new SingleCubeScene(scene, cube);
      r := Ok(s);
    }

    /** Three cube depths in front of the centre along Z. */
    function SuggestedInitialCameraPosition(): (p: Vec3)
      reads this, scene, cube, cube.entity
      ensures p.x == scene.Center.x && p.y == scene.Center.y
      ensures p.z - scene.Center.z == 3.0 * cube.entity.Bounds.z
    {
      Add(scene.Center, Scale(XnaExtensions.GetZVector(cube.entity.Bounds), 3.0))
    }
  }

  /** The position of the i-th arrow cube from three random draws. */
  function ArrowPosition(draws: seq<real>, i: int): Vec3
    requires 0 <= i < 500 && |draws| == 1500
  {
    Vec3((draws[3 * i] - 0.5) * 1000.0, (draws[3 * i + 1] - 0.5) * 1000.0, (draws[3 * i + 2] - 0.5) * 1000.0)
  }

  /** Draws in [0, 1) put every cube inside the cube [-500, 500) on each axis. */
  lemma ArrowPositionsInField(draws: seq<real>, i: int)
    requires 0 <= i < 500 && |draws| == 1500
    requires forall k :: 0 <= k < 1500 ==> 0.0 <= draws[k] < 1.0
    ensures var p := ArrowPosition(draws, i);
            -500.0 <= p.x < 500.0 && -500.0 <= p.y < 500.0 && -500.0 <= p.z < 500.0
  {
  }

  /** The i-th cube of the field: 20 by 60 by 20 at its drawn position, never updated. */
  ghost predicate ArrowCubeAt(o: Object3D, draws: seq<real>, i: int)
    requires 0 <= i < 500 && |draws| == 1500
    reads o
  {
    o.Position == ArrowPosition(draws, i) && o.Bounds == Vec3(20.0, 60.0, 20.0) && !o.RequiresUpdate
  }

  /** A scene of 500 thin cubes scattered at random. */
  class ArrowFieldScene {
    const scene: Scene

    constructor (scene: Scene)
      ensures this.scene == scene
    {
      this.scene := scene;
    }

    /** `new ArrowFieldScene(center)` with the 1500 values Random.NextDouble
        returns, three per cube, as `draws`. A cube whose position is not
        valid makes the constructor throw. */
    static method Create(xna: Xna, center: Vec3, draws: seq<real>) returns (r: Result<ArrowFieldScene>)
      requires |draws| == 1500
      ensures r.Ok? <==> forall i :: 0 <= i < 500 ==> xna.isValid(ArrowPosition(draws, i))
      ensures r.Err? ==> r.error == InvalidVector
      ensures r.Ok? ==> fresh(r.value) && fresh(r.value.scene) && r.value.scene.Valid()
      ensures r.Ok? ==> r.value.scene.Center == center && |r.value.scene.objects| == 500
      ensures r.Ok? ==> forall i :: 0 <= i < 500 ==> ArrowCubeAt(r.value.scene.objects[i], draws, i)
      ensures r.Ok? ==> r.value.scene.updatableObjects == []
      ensures r.Ok? ==> r.value.scene.RecommandedSettings.CameraPosition == Vec3(0.0, 0.0, 500.0) &&
                        !r.value.scene.RecommandedSettings.ArcBallOriginLocked
    {
      var scene := new Scene(center);
      var outcome := PlaceArrowCubes(xna, scene, draws);
      if outcome.Threw? {
        return Err(outcome.error);
      }
      NothingUpdatable(scene.objects);
      var s := new ArrowFieldScene(scene);
      r := Ok(s);
    }

    /** The constructor's loop: 500 cubes, one per three draws, with the
        recommended settings written on every iteration. */
    static method PlaceArrowCubes(xna: Xna, scene: Scene, draws: seq<real>) returns (outcome: Outcome)
      requires |draws| == 1500
      requires scene.Valid() && scene.objects == []
      modifies scene`objects, scene`updatableObjects, scene.RecommandedSettings
      ensures scene.Valid()
      ensures outcome.Completed? <==> forall i :: 0 <= i < 500 ==> xna.isValid(ArrowPosition(draws, i))
      ensures outcome.Threw? ==> outcome.error == InvalidVector
      ensures outcome.Completed? ==> |scene.objects| == 500
      ensures outcome.Completed? ==> forall i :: 0 <= i < 500 ==> ArrowCubeAt(scene.objects[i], draws, i)
      ensures outcome.Completed? ==> scene.RecommandedSettings.CameraPosition == Vec3(0.0, 0.0, 500.0) &&
                                     !scene.RecommandedSettings.ArcBallOriginLocked
    {
      for i := 0 to 500
        invariant scene.Valid() && |scene.objects| == i
        invariant forall j :: 0 <= j < i ==> xna.isValid(ArrowPosition(draws, j))
        invariant forall j :: 0 <= j < i ==> ArrowCubeAt(scene.objects[j], draws, j)
        invariant 0 < i ==> scene.RecommandedSettings.CameraPosition == Vec3(0.0, 0.0, 500.0) &&
                            !scene.RecommandedSettings.ArcBallOriginLocked
      {
        var added := AddArrowCube(xna, scene, ArrowPosition(draws, i));
        if added.Err? {
          return Threw(added.error);
        }
        scene.RecommandedSettings.CameraPosition := Vec3(0.0, 0.0, 500.0);
        scene.RecommandedSettings.ArcBallOriginLocked := false;
      }
      outcome := Completed;
    }

    /** One iteration's cube: 20 by 60 by 20 at the given position, added to
        the scene; an invalid position throws before anything is added. */
    static method AddArrowCube(xna: Xna, scene: Scene, position: Vec3) returns (r: Result<Object3D>)
      requires scene.Valid()
      modifies scene`objects, scene`updatableObjects
      ensures scene.Valid()
      ensures r.Ok? <==> xna.isValid(position)
      ensures r.Err? ==> r.error == InvalidVector && scene.objects == old(scene.objects)
      ensures r.Ok? ==> scene.objects == old(scene.objects) + [r.value]
      ensures r.Ok? ==> r.value.Position == position && r.value.Bounds == Vec3(20.0, 60.0, 20.0) &&
                        !r.value.RequiresUpdate
    {
      var created := Cube.Create(xna, position, Vec3(20.0, 60.0, 20.0));
      if created.Err? {
        return Err(created.error);
      }
      scene.AddObject(created.value.entity);
      r := Ok(created.value.entity);
    }
  }
}
