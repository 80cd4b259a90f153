/** Workflow objects: structs whose labels, selector and statuses are maps held by reference. */
module Objects {
  import opened Prelude
  import opened Api
  import Jobs

  class LabelMap {
    var entries: Labels

    constructor (entries: Labels)
      ensures this.entries == entries
    {
      this.entries := entries;
    }
  }

  class StatusMap {
    var entries: Statuses

    constructor (entries: Statuses)
      ensures this.entries == entries
    {
      this.entries := entries;
    }
  }

  /** What a client holds of a workflow: its value, which of its maps are there, and its resource version. */
  datatype Copy = Copy(w: Workflow, hasLabels: bool, hasStatuses: bool, version: nat)

  ghost predicate IsCopy(c: Copy) {
    && (!c.hasLabels ==> c.w.labels == map[])
    && (!c.hasStatuses ==> c.w.statuses == map[])
  }

  class WorkflowObject {
    const name: string
    const namespace: string
    const uid: string
    const activeDeadlineSeconds: Option<int>
    const steps: Steps
    const version: nat
    var labels: LabelMap?
    var jobsSelector: LabelMap?
    var statuses: StatusMap?
    var conditions: seq<WorkflowCondition>
    var startTime: Option<int>
    var completionTime: Option<int>

    /** Labels and selector are two different maps. */
    ghost predicate Valid()
      reads this
    {
      labels != null ==> labels != jobsSelector
    }

    /** Reading a nil map reads an empty one; writing to it fails. */
    function StatusEntries(): Statuses
      reads this, statuses
    {
      if statuses == null then map[] else statuses.entries
    }

    /** The value of the object, with nil labels and statuses read as empty. */
    function View(): Workflow
      reads this, labels, jobsSelector, statuses
    {
      Workflow(name, namespace, uid, activeDeadlineSeconds,
               if labels == null then map[] else labels.entries,
               steps,
               if jobsSelector == null then None else Some(jobsSelector.entries),
               StatusEntries(),
               conditions, startTime, completionTime)
    }

    function Shown(): Copy
      reads this, labels, jobsSelector, statuses
    {
      Copy(View(), labels != null, statuses != null, version)
    }

    /** An object read from the server, with maps of its own. */
    constructor Decoded(c: Copy)
      requires IsCopy(c)
      ensures Valid() && Shown() == c
      ensures (labels != null ==> fresh(labels)) && (jobsSelector != null ==> fresh(jobsSelector))
      ensures statuses != null ==> fresh(statuses)
    {
      name, namespace, uid := c.w.name, c.w.namespace, c.w.uid;
      activeDeadlineSeconds, steps, version := c.w.activeDeadlineSeconds, c.w.steps, c.version;
      conditions, startTime, completionTime := c.w.conditions, c.w.startTime, c.w.completionTime;
      labels, jobsSelector, statuses := null, null, null;
      new;
      if c.hasLabels {
        labels := new LabelMap(c.w.labels);
      }
      if c.w.jobsSelector.Some? {
        jobsSelector := new LabelMap(c.w.jobsSelector.value);
      }
      if c.hasStatuses {
        statuses := new StatusMap(c.w.statuses);
      }
    }

    /** A shallow copy: the maps are shared with the original. */
    constructor CopyOf(w: WorkflowObject)
      ensures name == w.name && namespace == w.namespace && uid == w.uid
      ensures activeDeadlineSeconds == w.activeDeadlineSeconds && steps == w.steps && version == w.version
      ensures labels == w.labels && jobsSelector == w.jobsSelector && statuses == w.statuses
      ensures conditions == w.conditions && startTime == w.startTime && completionTime == w.completionTime
    {
      name, namespace, uid := w.name, w.namespace, w.uid;
      activeDeadlineSeconds, steps, version := w.activeDeadlineSeconds, w.steps, w.version;
      labels, jobsSelector, statuses := w.labels, w.jobsSelector, w.statuses;
      conditions, startTime, completionTime := w.conditions, w.startTime, w.completionTime;
    }

    method SetLabels(added: Labels)
      requires Valid()
      modifies this`labels, labels
      ensures Valid() && labels != null && (old(labels) == null ==> fresh(labels))
              && (old(labels) != null ==> labels == old(labels))
      ensures View() == old(View()).(labels := old(View()).labels + added)
    {
      if labels == null {
        labels := new LabelMap(map[]);
      }
      labels.entries := Jobs.CopyLabels(labels.entries, added);
    }

    /** A nil selector is replaced in this object only; a present one is changed where it is. */
    method SetUID()
      requires Valid()
      modifies this`labels, this`jobsSelector, labels, jobsSelector
      ensures Valid() && labels != null && (old(labels) == null ==> fresh(labels))
              && (old(labels) != null ==> labels == old(labels))
      ensures jobsSelector != null && (old(jobsSelector) == null ==> fresh(jobsSelector))
      ensures old(jobsSelector) != null ==> jobsSelector == old(jobsSelector)
      ensures View() == Api.SetUID(old(View()))
    {
      if jobsSelector == null {
        jobsSelector := new LabelMap(map[]);
      }
      SetLabels(map[UID_LABEL := uid]);
      assert View().labels == old(View()).labels[UID_LABEL := uid];
      jobsSelector.entries := jobsSelector.entries[UID_LABEL := uid];
    }

    method SetDefaults(now: int)
      requires Valid()
      modifies this, labels, jobsSelector
      ensures Valid() && labels != null && (old(labels) == null ==> fresh(labels))
              && (old(labels) != null ==> labels == old(labels))
      ensures jobsSelector != null && (old(jobsSelector) == null ==> fresh(jobsSelector))
      ensures old(jobsSelector) != null ==> jobsSelector == old(jobsSelector)
      ensures fresh(statuses)
      ensures View() == Api.SetDefaults(old(View()), now)
    {
      statuses := new StatusMap(map[]);
      startTime := Some(now);
      SetUID();
    }

    method AddCompleteCondition(now: int)
      modifies this`conditions, this`completionTime
      ensures View() == Api.AddCompleteCondition(old(View()), now)
    {
      conditions := conditions + [COMPLETED];
      completionTime := Some(now);
    }
  }
}
