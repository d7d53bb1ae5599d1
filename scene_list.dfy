/**
 * The scene list asset: the scenes of the game in build order, looked up by index or by name.
 */
module Scenes {
  import opened Base

  /** A scene asset; only its name is read. */
  datatype SceneAsset = SceneAsset(name: string)

  /** The position of the first asset called `sceneName`, or -1 when there is none. */
  function FirstIndexOf(assets: seq<SceneAsset>, sceneName: string): (r: int)
    ensures -1 <= r < |assets|
    ensures r >= 0 ==> assets[r].name == sceneName && forall j :: 0 <= j < r ==> assets[j].name != sceneName
    ensures r == -1 <==> forall j :: 0 <= j < |assets| ==> assets[j].name != sceneName
  {
    if |assets| == 0 then -1
    else if assets[0].name == sceneName then 0
    else
      var rest := FirstIndexOf(assets[1..], sceneName);
      assert forall j :: 0 < j < |assets| ==> assets[1..][j - 1] == assets[j];
      if rest == -1 then -1 else rest + 1
  }

  class SceneList {
    const sceneAssets: seq<SceneAsset>

    constructor (assets: seq<SceneAsset>)
      ensures sceneAssets == assets
    {
      sceneAssets := assets;
    }

    function SceneCount(): nat
    {
      |sceneAssets|
    }

    /** The names of all scenes, in order, in a new array of SceneCount entries. */
    method ScenesNames() returns (names: array<string>)
      ensures fresh(names) && names.Length == SceneCount()
      ensures forall i :: 0 <= i < names.Length ==> names[i] == sceneAssets[i].name
    {
      names := new string[|sceneAssets|];
      var i := 0;
      while i < |sceneAssets|
        invariant 0 <= i <= |sceneAssets|
        invariant forall j :: 0 <= j < i ==> names[j] == sceneAssets[j].name
      {
        names[i] := sceneAssets[i].name;
        i := i + 1;
      }
    }

    /** The name of the scene at `index`; None (null) outside [0, SceneCount). */
    function GetScene(index: int): (name: Option<string>)
      ensures name.None? <==> index < 0 || index >= SceneCount()
      ensures name.Some? ==> name.value == sceneAssets[index].name
    {
      if index < 0 || index >= |sceneAssets| then None else Some(sceneAssets[index].name)
    }

    /** Looks the name up: true with the first matching position, or false with -1. */
    method IfHasSceneReturnIndex(sceneName: string) returns (found: bool, index: int)
      ensures found <==> index >= 0
      ensures index == FirstIndexOf(sceneAssets, sceneName)
      ensures found ==> GetScene(index) == Some(sceneName)
    {
      index := -1;
      var i := 0;
      while i < |sceneAssets|
        invariant 0 <= i <= |sceneAssets|
        invariant forall j :: 0 <= j < i ==> sceneAssets[j].name != sceneName
      {
        if sceneAssets[i].name == sceneName {
          index := i;
          return true, index;
        }
        i := i + 1;
      }
      return false, index;
    }

    /** Whether some scene has the name; agrees with IfHasSceneReturnIndex. */
    method HasScene(sceneName: string) returns (has: bool)
      ensures has <==> exists i :: 0 <= i < SceneCount() && sceneAssets[i].name == sceneName
      ensures has <==> FirstIndexOf(sceneAssets, sceneName) >= 0
    {
      var i := 0;
      while i < |sceneAssets|
        invariant 0 <= i <= |sceneAssets|
        invariant forall j :: 0 <= j < i ==> sceneAssets[j].name != sceneName
      {
        if sceneAssets[i].name == sceneName {
          return true;
        }
        i := i + 1;
      }
      return false;
    }
  }
}
