/** Where the two phase checkpoints live. */
module Checkpoints {
  import opened Phases

  /** POSIX `os.path.join` of two components: an absolute `name` replaces `dir`; otherwise a
      separator is inserted unless `dir` is empty or already ends with one. */
  function Join(dir: string, name: string): (path: string)
    ensures |path| >= |name| && path[|path| - |name|..] == name
    ensures (name == [] || name[0] != '/') ==> dir <= path
    ensures (name == [] || name[0] != '/') && dir != [] && dir[|dir| - 1] != '/' ==>
              |path| == |dir| + 1 + |name| && path[|dir|] == '/'
    ensures (name == [] || name[0] != '/') && (dir == [] || dir[|dir| - 1] == '/') ==> |path| == |dir| + |name|
    ensures name != [] && name[0] == '/' ==> path == name
  {
    if name != [] && name[0] == '/' then name
    else if dir == [] || dir[|dir| - 1] == '/' then dir + name
    else dir + "/" + name
  }

  /** The checkpoint file of a phase: `<store>/model_<phase>.pth`. */
  function ModelName(store: string, phaseName: string): (path: string)
    ensures store <= path
    ensures |path| >= |phaseName| + 10 && path[|path| - |phaseName| - 10..] == "model_" + phaseName + ".pth"
  {
    Join(store, "model_" + phaseName + ".pth")
  }

  function ClassificationModelName(store: string): string {
    ModelName(store, ClassificationPhaseName)
  }

  function EarlinessModelName(store: string): string {
    ModelName(store, EarlinessPhaseName)
  }

  /** Both checkpoints always go to different files, whatever the store directory. */
  lemma ModelNamesDistinct(store: string)
    ensures ClassificationModelName(store) != EarlinessModelName(store)
  {
    var c, e := ClassificationModelName(store), EarlinessModelName(store);
    // Both extend `store` by the same separator (or none), so the file names fix the lengths.
    assert |c| - |"model_classification.pth"| == |e| - |"model_earliness.pth"|;
  }

  /** A store directory without a trailing separator gets one: `<store>/model_classification.pth`
      and `<store>/model_earliness.pth`. */
  lemma ModelNamesUnderStore(store: string)
    requires store != [] && store[|store| - 1] != '/'
    ensures ClassificationModelName(store) == store + "/model_classification.pth"
    ensures EarlinessModelName(store) == store + "/model_earliness.pth"
  {
    assert "model_" + ClassificationPhaseName + ".pth" == "model_classification.pth";
    assert "model_" + EarlinessPhaseName + ".pth" == "model_earliness.pth";
    assert store + "/" + "model_classification.pth" == store + "/model_classification.pth";
    assert store + "/" + "model_earliness.pth" == store + "/model_earliness.pth";
  }

  /** A store directory that is empty or already ends with a separator gets none added:
      `<store>model_classification.pth` and `<store>model_earliness.pth`. */
  lemma ModelNamesUnderSlashedStore(store: string)
    requires store == [] || store[|store| - 1] == '/'
    ensures ClassificationModelName(store) == store + "model_classification.pth"
    ensures EarlinessModelName(store) == store + "model_earliness.pth"
  {
    assert "model_" + ClassificationPhaseName + ".pth" == "model_classification.pth";
    assert "model_" + EarlinessPhaseName + ".pth" == "model_earliness.pth";
  }
}
