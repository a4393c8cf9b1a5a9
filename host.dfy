/** The services the orchestrator hands to a running task. */
module Host {
  import opened Outcomes

  /** The URI of a file in the orchestrator's internal storage. */
  type Uri = string

  /** A local file written by a task before it is handed to the storage. */
  datatype LocalFile = LocalFile(path: string)

  /** A counter metric reported to the orchestrator. */
  datatype Counter = Counter(name: string, value: int)

  /** The run context of one task execution. Template rendering and the temp-file
      storage belong to the host and are left uninterpreted: any function of these
      types is a possible host, including ones that fail. The metrics a task emits
      are kept as a log, in emission order. */
  class RunContext {
    const render: string -> Result<string>
    const renderList: seq<string> -> Result<seq<string>>
    const putTempFile: LocalFile -> Result<Uri>
    var metrics: seq<Counter>

    constructor (render: string -> Result<string>, renderList: seq<string> -> Result<seq<string>>,
                 putTempFile: LocalFile -> Result<Uri>)
      ensures this.render == render && this.renderList == renderList
      ensures this.putTempFile == putTempFile
      ensures metrics == []
    {
      this.render := render;
      this.renderList := renderList;
      this.putTempFile := putTempFile;
      metrics := [];
    }

    /** Reports one counter to the host. */
    method Metric(c: Counter)
      modifies this`metrics
      ensures metrics == old(metrics) + [c]
    {
      metrics := metrics + [c];
    }
  }
}
