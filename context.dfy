/**
 * The rendering script from start to end: it normalizes the job spec, reads
 * the template's mode, builds the links and the instance descriptor, hands
 * them to the template engine together with the context's properties, and
 * writes the engine's output with the mode chosen by the destination's parent
 * directory (rb/template_evaluation_context.rb, lines 16-100).
 *
 * The template engine (the `bosh-template` gem) is a function parameter: the
 * model says what it is given and what is done with its answer, nothing about
 * how it renders. The filesystem is reduced to the template's mode (None when
 * the template is missing) and the destination path.
 */
module Context {
  import opened Values
  import opened Links
  import opened Instance
  import opened JobSpec
  import opened Paths

  /**
   * Everything the engine receives: `Template.new(job_spec, src_path)` and then
   * `render(properties, spec: instance, consumes: links)`.
   */
  datatype RenderRequest = RenderRequest(
    jobSpec: Value,
    templatePath: string,
    properties: Value,
    spec: InstanceSpec,
    consumes: seq<Link>)

  /** What the script leaves at the destination: the text written and the mode set. */
  datatype RenderedFile = RenderedFile(content: string, mode: int)

  /** The template engine: the rendered text, or the exception it raises. */
  type Engine = RenderRequest -> Result<string>

  /** `File.stat(src_path).mode`, with a missing template reported as the script reports it. */
  function TemplateMode(templatePath: string, templateMode: Option<int>): (r: Result<int>)
    ensures templateMode.Some? ==> r == Ok(templateMode.value)
    ensures templateMode.None? ==> r == Err(RuntimeError("failed to read template file " + templatePath))
  {
    match templateMode
    case Some(mode) => Ok(mode)
    case None => Err(RuntimeError("failed to read template file " + templatePath))
  }

  /**
   * The script as a function of its inputs: the file it writes, or the first
   * exception raised, in the order the script does its work.
   */
  function Render(
    contextHash: Value, jobSpec: Value, instanceInfo: Value,
    templatePath: string, templateMode: Option<int>, destination: string, engine: Engine
  ): (r: Result<RenderedFile>)
    ensures NormalizeJobSpec(jobSpec).Err? ==> r == Err(NormalizeJobSpec(jobSpec).error)
    ensures NormalizeJobSpec(jobSpec).Ok? && templateMode.None? ==>
      r == Err(RuntimeError("failed to read template file " + templatePath))
    ensures NormalizeJobSpec(jobSpec).Ok? && templateMode.Some? && CollectLinks(contextHash).Err? ==>
      r == Err(CollectLinks(contextHash).error)
    ensures
      (NormalizeJobSpec(jobSpec).Ok? && templateMode.Some? && CollectLinks(contextHash).Ok?
       && BuildInstanceSpec(instanceInfo).Err?) ==> r == Err(BuildInstanceSpec(instanceInfo).error)
  {
    var normalized :- NormalizeJobSpec(jobSpec);
    var mode :- TemplateMode(templatePath, templateMode);
    var links :- CollectLinks(contextHash);
    RenderWithLinks(contextHash, normalized, instanceInfo, templatePath, mode, links, destination, engine)
  }

  /**
   * The rest of the script once the links are built: the instance descriptor,
   * the engine, and the mode of the written file.
   */
  function RenderWithLinks(
    contextHash: Value, normalized: Value, instanceInfo: Value,
    templatePath: string, mode: int, links: seq<Link>, destination: string, engine: Engine
  ): Result<RenderedFile>
    requires CollectLinks(contextHash).Ok?
  {
    var spec :- BuildInstanceSpec(instanceInfo);
    // the links were built, so the context answered `[]` and cannot raise here
    var request := RenderRequest(normalized, templatePath, Fetch(contextHash, "properties").value, spec, links);
    var output :- engine(request);
    Ok(RenderedFile(output, OutputMode(destination, mode)))
  }

  /**
   * Once the context is assembled, the engine's text is written unmodified, an
   * engine exception is the script's, and the mode is 0755 exactly when the
   * destination's immediate parent directory is named `bin`, the template's
   * own mode otherwise.
   */
  lemma RenderedAsEngineOutput(
    contextHash: Value, jobSpec: Value, instanceInfo: Value,
    templatePath: string, templateMode: Option<int>, destination: string, engine: Engine)
    requires NormalizeJobSpec(jobSpec).Ok? && templateMode.Some?
    requires CollectLinks(contextHash).Ok? && BuildInstanceSpec(instanceInfo).Ok?
    ensures var request := RenderRequest(
        NormalizeJobSpec(jobSpec).value, templatePath, Fetch(contextHash, "properties").value,
        BuildInstanceSpec(instanceInfo).value, CollectLinks(contextHash).value);
      Render(contextHash, jobSpec, instanceInfo, templatePath, templateMode, destination, engine) ==
        match engine(request)
        case Ok(text) =>
          Ok(RenderedFile(text, if ParentName(destination) == "bin" then ExecutableMode else templateMode.value))
        case Err(e) => Err(e)
  {
    OutputModeByParentName(destination, templateMode.value);
  }

  /** The script itself, building the links with its loops. */
  method RenderTemplate(
    contextHash: Value, jobSpec: Value, instanceInfo: Value,
    templatePath: string, templateMode: Option<int>, destination: string, engine: Engine
  ) returns (r: Result<RenderedFile>)
    ensures r == Render(contextHash, jobSpec, instanceInfo, templatePath, templateMode, destination, engine)
  {
    var normalized :- NormalizeJobSpec(jobSpec);
    var mode :- TemplateMode(templatePath, templateMode);
    var links :- BuildLinks(contextHash);
    r := RenderWithLinks(contextHash, normalized, instanceInfo, templatePath, mode, links, destination, engine);
  }
}
