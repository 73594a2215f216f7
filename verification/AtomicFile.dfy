/** WriteFileAtomic: a temporary file beside the target, renamed over it. */
module AtomicFile {

  type Bytes = seq<bv8>

  datatype Step = MakeDir | CreateTemp | WriteData | ChangeMode | Rename

  /** What befalls a call: at most one step goes wrong. A step that fails lets the
      deferred clean-up run, a crash does not; a data write that goes wrong leaves the
      first bytes of what it had to write. A crash past the rename leaves what success does. */
  datatype Fate = Smooth | Fails(at: Step) | Crashes(at: Step)

  datatype Plan = Plan(fate: Fate, written: nat, removable: bool)

  predicate GoesWrong(plan: Plan, step: Step) { plan.fate == Fails(step) || plan.fate == Crashes(step) }

  lemma SmoothOrSomewhere(plan: Plan)
    ensures plan.fate.Smooth? <==>
            !GoesWrong(plan, MakeDir) && !GoesWrong(plan, CreateTemp) && !GoesWrong(plan, WriteData) &&
            !GoesWrong(plan, ChangeMode) && !GoesWrong(plan, Rename)
  {
    match plan.fate
    case Smooth =>
    case Fails(at) => assert at.MakeDir? || at.CreateTemp? || at.WriteData? || at.ChangeMode? || at.Rename?;
    case Crashes(at) => assert at.MakeDir? || at.CreateTemp? || at.WriteData? || at.ChangeMode? || at.Rename?;
  }

  class Directory {
    var files: map<string, Bytes>

    constructor (files: map<string, Bytes>)
      ensures this.files == files
    {
      this.files := files;
    }

    /** The deferred close and removal; a file already renamed away is no error. */
    method CleanUp(temp: string, plan: Plan)
      modifies this
      ensures files == if plan.fate.Crashes? || !plan.removable then old(files) else old(files) - {temp}
    {
      if !plan.fate.Crashes? && plan.removable { files := files - {temp}; }
    }

    /** A reader of the target sees the old bytes until the rename and the new ones
        from then on, whatever goes wrong and wherever; the rest of the directory is
        untouched; and no temporary file outlives a call that could remove it. */
    method WriteFileAtomic(path: string, data: Bytes, temp: string, plan: Plan) returns (ok: bool)
      requires temp !in files && temp != path
      modifies this
      ensures ok <==> plan.fate.Smooth?
      ensures var kept := old(files) - {path, temp}; files - {path, temp} == kept
      ensures if ok then path in files && files[path] == data
              else (path in files <==> path in old(files)) && (path in files ==> files[path] == old(files)[path])
      ensures temp in files ==> !ok && (plan.fate.Crashes? || !plan.removable) && files[temp] <= data
      ensures temp !in files && !ok ==> files == old(files)
    {
      SmoothOrSomewhere(plan);
      if GoesWrong(plan, MakeDir) || GoesWrong(plan, CreateTemp) { return false; }
      files := files[temp := []];
      if GoesWrong(plan, WriteData) {
        files := files[temp := if plan.written < |data| then data[..plan.written] else data];
        CleanUp(temp, plan);
        return false;
      }
      files := files[temp := data];
      if GoesWrong(plan, ChangeMode) || GoesWrong(plan, Rename) {
        CleanUp(temp, plan);
        return false;
      }
      files := files[path := files[temp]] - {temp};
      CleanUp(temp, plan);
      return true;
    }
  }
}
