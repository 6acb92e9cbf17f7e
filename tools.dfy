/** The tool registry and the three built-in tools: `read_file`,
    `list_files` and `edit_file`. Each tool's executor is modelled twice: as
    a specification function over a `Disk` value and as a method over the
    mutable `FileSystem` that is proved to agree with it. */
module Tools {
  import opened Wrappers
  import opened Text
  import opened Files

  datatype PropertySchema = PropertySchema(kind: string, description: string)

  /** A JSON-Schema object description: named string properties and the names
      that must be present. */
  datatype InputSchema = InputSchema(kind: string, properties: map<string, PropertySchema>, required: seq<string>)

  /** Which executor a tool runs; stands for the Go closure in `Function`. */
  datatype Executor = ReadFileFn | ListFilesFn | EditFileFn

  datatype ToolDefinition = ToolDefinition(name: string, description: string, inputSchema: InputSchema, executor: Executor)

  /** A tool as the model API receives it; the description is an optional
      field there. */
  datatype ToolParam = ToolParam(name: string, description: Option<string>, inputSchema: InputSchema)

  /** The tool input as the executor decodes it: either an object whose
      string fields are known, or input that does not decode. */
  datatype Payload = Object(fields: map<string, string>) | Malformed(reason: string)

  /** A field decoded into a Go struct: a missing field is the empty string. */
  function Field(fields: map<string, string>, key: string): (v: string)
    ensures key in fields ==> v == fields[key]
    ensures key !in fields ==> v == ""
  {
    if key in fields then fields[key] else ""
  }

  function ParseError(reason: string): string
  {
    "failed to parse input: " + reason
  }

  /** The API form of a tool: name, description and schema carried over
      unchanged, the description marked as present. */
  function ToAnthropicTool(t: ToolDefinition): (p: ToolParam)
    ensures p.name == t.name && p.description == Some(t.description) && p.inputSchema == t.inputSchema
  {
    ToolParam(t.name, Some(t.description), t.inputSchema)
  }

  function StringProperty(description: string): PropertySchema
  {
    PropertySchema("string", description)
  }

  // The descriptions and input schemas the tools are registered with.

  const ReadFileDescription := "Read the contents of a file at the specified path"
  const ListFilesDescription := "List all files and directories at the specified path"
  const EditFileDescription := "Edit a file by replacing old_text with new_text. Creates the file if it doesn't exist."

  const ReadFileSchema :=
    InputSchema("object", map["path" := StringProperty("The path to the file to read")], ["path"])
  const ListFilesSchema :=
    InputSchema("object",
      map["path" := StringProperty("The directory path to list files from (default: current directory)")],
      [])
  const EditFileSchema :=
    InputSchema("object",
      map["path" := StringProperty("The path to the file to edit"),
          "old_text" := StringProperty("The text to replace"),
          "new_text" := StringProperty("The replacement text")],
      ["path", "old_text", "new_text"])

  /** `read_file`: needs a path. */
  function ReadFileTool(): (t: ToolDefinition)
    ensures t.name == "read_file" && t.executor == ReadFileFn
    ensures SchemaDeclaresRequired(t.inputSchema) && t.inputSchema.required == ["path"]
  {
    ToolDefinition("read_file", ReadFileDescription, ReadFileSchema, ReadFileFn)
  }

  /** `list_files`: the path is optional. */
  function ListFilesTool(): (t: ToolDefinition)
    ensures t.name == "list_files" && t.executor == ListFilesFn
    ensures SchemaDeclaresRequired(t.inputSchema) && t.inputSchema.required == []
    ensures "path" in t.inputSchema.properties
  {
    ToolDefinition("list_files", ListFilesDescription, ListFilesSchema, ListFilesFn)
  }

  /** `edit_file`: needs a path, the text to replace and its replacement. */
  function EditFileTool(): (t: ToolDefinition)
    ensures t.name == "edit_file" && t.executor == EditFileFn
    ensures SchemaDeclaresRequired(t.inputSchema) && t.inputSchema.required == ["path", "old_text", "new_text"]
  {
    ToolDefinition("edit_file", EditFileDescription, EditFileSchema, EditFileFn)
  }

  /** The registry: the three tools in a fixed order. */
  function GetAllTools(): (tools: seq<ToolDefinition>)
    ensures |tools| == 3
    ensures tools[0].name == "read_file" && tools[1].name == "list_files" && tools[2].name == "edit_file"
    ensures tools[0].executor == ReadFileFn && tools[1].executor == ListFilesFn && tools[2].executor == EditFileFn
  {
    [ReadFileTool(), ListFilesTool(), EditFileTool()]
  }

  /** A schema the API accepts: an object schema whose required names are
      all declared properties. */
  predicate SchemaDeclaresRequired(schema: InputSchema)
  {
    && schema.kind == "object"
    && forall k :: 0 <= k < |schema.required| ==> schema.required[k] in schema.properties
  }

  /** Distinct names, so lookup by name is unambiguous, and sound schemas. */
  predicate WellFormed(tools: seq<ToolDefinition>)
  {
    && (forall i, j :: 0 <= i < j < |tools| ==> tools[i].name != tools[j].name)
    && (forall i :: 0 <= i < |tools| ==> SchemaDeclaresRequired(tools[i].inputSchema))
  }

  lemma RegistryWellFormed()
    ensures WellFormed(GetAllTools())
  {
    var tools := GetAllTools();
    assert tools[0].name[0] == 'r' && tools[1].name[0] == 'l' && tools[2].name[0] == 'e';
    assert SchemaDeclaresRequired(ReadFileTool().inputSchema);
    assert SchemaDeclaresRequired(ListFilesTool().inputSchema);
    var edit := EditFileTool().inputSchema;
    assert edit.required[0] == "path" && edit.required[1] == "old_text" && edit.required[2] == "new_text";
    assert SchemaDeclaresRequired(edit);
  }

  // ---------------------------------------------------------------- read_file

  /** `read_file`: the file's contents, a parse error, or the read error
      wrapped as "failed to read file". */
  function ReadFileResult(d: Disk, input: Payload): (r: Result<string>)
    ensures input.Malformed? ==> r == Err(ParseError(input.reason))
    ensures input.Object? ==> var path := Field(input.fields, "path");
      && (r.Ok? <==> path in d.files)
      && (r.Ok? ==> r.value == d.files[path])
      && (r.Err? ==> r.error == "failed to read file: " + ReadAt(d, path).error)
  {
    match input
    case Malformed(reason) => Err(ParseError(reason))
    case Object(fields) =>
      match ReadAt(d, Field(fields, "path"))
      case Ok(content) => Ok(content)
      case Err(e) => Err("failed to read file: " + e)
  }

  method RunReadFile(fs: FileSystem, input: Payload) returns (r: Result<string>)
    ensures r == ReadFileResult(fs.State(), input)
  {
    if input.Malformed? {
      return Err(ParseError(input.reason));
    }
    var content := fs.ReadFile(Field(input.fields, "path"));
    if content.Err? {
      return Err("failed to read file: " + content.error);
    }
    return Ok(content.value);
  }

  // --------------------------------------------------------------- list_files

  /** The walk callback's accumulation: visited paths appended in visit
      order; the first error stops the walk and becomes its result. */
  function Collect(visits: seq<Visit>): (r: Result<seq<string>>)
    ensures r.Ok? ==> |r.value| == |visits|
  {
    if visits == [] then Ok([])
    else
      match Collect(visits[..|visits| - 1])
      case Err(e) => Err(e)
      case Ok(paths) =>
        var last := visits[|visits| - 1];
        if last.err.Some? then Err(last.err.value) else Ok(paths + [last.path])
  }

  /** Once the walk has failed, later entries do not change its result. */
  lemma {:induction false} CollectErrStays(visits: seq<Visit>, more: seq<Visit>)
    requires Collect(visits).Err?
    ensures Collect(visits + more) == Collect(visits)
    decreases |more|
  {
    if more == [] {
      assert visits + more == visits;
    } else {
      var front := more[..|more| - 1];
      CollectErrStays(visits, front);
      assert (visits + more)[..|visits + more| - 1] == visits + front;
    }
  }

  /** What the walk yields: every visited path exactly once and in visit
      order when no entry reports an error; otherwise the first error. */
  lemma {:induction false} CollectMeaning(visits: seq<Visit>)
    ensures Collect(visits).Ok? <==> forall i :: 0 <= i < |visits| ==> visits[i].err.None?
    ensures Collect(visits).Ok? ==>
      |Collect(visits).value| == |visits| &&
      forall i :: 0 <= i < |visits| ==> Collect(visits).value[i] == visits[i].path
    ensures Collect(visits).Err? ==>
      exists k :: 0 <= k < |visits| && visits[k].err == Some(Collect(visits).error) &&
        forall j :: 0 <= j < k ==> visits[j].err.None?
    decreases |visits|
  {
    if visits != [] {
      var front := visits[..|visits| - 1];
      CollectMeaning(front);
      assert forall i :: 0 <= i < |front| ==> front[i] == visits[i];
    }
  }

  /** Go's escaping of a string for JSON, for the two characters that must
      always be escaped: the quote and the backslash. */
  function Escape(s: string): string
  {
    if s == [] then []
    else (if s[0] == '"' then "\\\"" else if s[0] == '\\' then "\\\\" else [s[0]]) + Escape(s[1..])
  }

  function Quoted(paths: seq<string>): string
    requires paths != []
  {
    "\"" + Escape(paths[0]) + "\"" + (if |paths| == 1 then "" else "," + Quoted(paths[1..]))
  }

  /** The JSON text of the collected paths; a walk that appended nothing left
      a nil slice, which encodes as `null`. */
  function EncodePaths(paths: seq<string>): (json: string)
    ensures paths == [] <==> json == "null"
    ensures paths != [] ==> |json| >= 2 && json[0] == '[' && json[|json| - 1] == ']'
  {
    if paths == [] then "null"
    else
      var json := "[" + Quoted(paths) + "]";
      assert json[0] == '[' != "null"[0];
      json
  }

  /** The root of the walk: the given path, or "." when it is empty. */
  function ListRoot(fields: map<string, string>): (root: string)
    ensures root != ""
    ensures Field(fields, "path") != "" ==> root == Field(fields, "path")
    ensures Field(fields, "path") == "" ==> root == "."
  {
    var path := Field(fields, "path");
    if path == "" then "." else path
  }

  /** `list_files`: the encoded list of walked paths, a parse error, or the
      walk's first error wrapped as "failed to list files". */
  function ListFilesResult(d: Disk, input: Payload): (r: Result<string>)
    ensures input.Malformed? ==> r == Err(ParseError(input.reason))
    ensures input.Object? ==> (r.Ok? <==> Collect(WalkFrom(d, ListRoot(input.fields))).Ok?)
  {
    match input
    case Malformed(reason) => Err(ParseError(reason))
    case Object(fields) =>
      match Collect(WalkFrom(d, ListRoot(fields)))
      case Err(e) => Err("failed to list files: " + e)
      case Ok(paths) => Ok(EncodePaths(paths))
  }

  method RunListFiles(fs: FileSystem, input: Payload) returns (r: Result<string>)
    ensures r == ListFilesResult(fs.State(), input)
  {
    if input.Malformed? {
      return Err(ParseError(input.reason));
    }
    var path := Field(input.fields, "path");
    if path == "" {
      path := ".";
    }
    var visits := fs.Walk(path);
    var files: seq<string> := [];
    var i := 0;
    while i < |visits|
      invariant 0 <= i <= |visits|
      invariant Collect(visits[..i]) == Ok(files)
    {
      assert visits[..i + 1][..i] == visits[..i];
      if visits[i].err.Some? {
        CollectErrStays(visits[..i + 1], visits[i + 1..]);
        assert visits[..i + 1] + visits[i + 1..] == visits;
        return Err("failed to list files: " + visits[i].err.value);
      }
      files := files + [visits[i].path];
      i := i + 1;
    }
    assert visits[..i] == visits;
    return Ok(EncodePaths(files));
  }

  /** An empty path lists the current directory. */
  lemma ListFilesDefaultsToDot(d: Disk, fields: map<string, string>)
    requires Field(fields, "path") == ""
    ensures ListFilesResult(d, Object(fields)) == ListFilesResult(d, Object(map["path" := "."]))
  {
  }

  /** `list_files` succeeds exactly when no walked entry reports an error,
      and then lists every walked path once, in visit order. */
  lemma ListFilesOutcome(d: Disk, fields: map<string, string>)
    ensures var visits := WalkFrom(d, ListRoot(fields));
      var r := ListFilesResult(d, Object(fields));
      && (r.Ok? <==> forall i :: 0 <= i < |visits| ==> visits[i].err.None?)
      && (r.Ok? ==> exists paths: seq<string> ::
            && r.value == EncodePaths(paths)
            && |paths| == |visits|
            && forall i :: 0 <= i < |visits| ==> paths[i] == visits[i].path)
      && (r.Err? ==>
            exists k :: 0 <= k < |visits| && visits[k].err.Some? &&
              r.error == "failed to list files: " + visits[k].err.value &&
              forall j :: 0 <= j < k ==> visits[j].err.None?)
  {
    CollectMeaning(WalkFrom(d, ListRoot(fields)));
  }

  // ---------------------------------------------------------------- edit_file

  /** The content `edit_file` starts from: the file's contents, or the empty
      string when it cannot be read. */
  function ContentOrEmpty(d: Disk, path: string): (c: string)
    ensures path in d.files ==> c == d.files[path]
    ensures path !in d.files ==> c == ""
  {
    match ReadAt(d, path)
    case Ok(content) => content
    case Err(_) => ""
  }

  /** `edit_file`: replace every occurrence of old_text in the current (or
      empty) content by new_text and write the result back. */
  function EditFileOutcome(d: Disk, input: Payload): (r: (Result<string>, Disk))
    ensures r.1.writable == d.writable && r.1.walks == d.walks
    ensures r.0.Err? ==> r.1 == d
    ensures r.0.Ok? ==> input.Object? && r.1.files.Keys == d.files.Keys + {Field(input.fields, "path")}
  {
    match input
    case Malformed(reason) => (Err(ParseError(reason)), d)
    case Object(fields) =>
      var path := Field(fields, "path");
      var updated := ReplaceAll(ContentOrEmpty(d, path), Field(fields, "old_text"), Field(fields, "new_text"));
      match WriteAt(d, path, updated)
      case (Some(e), d') => (Err("failed to write file: " + e), d')
      case (None, d') => (Ok("Successfully edited " + path), d')
  }

  method RunEditFile(fs: FileSystem, input: Payload) returns (r: Result<string>)
    modifies fs`files
    ensures (r, fs.State()) == EditFileOutcome(old(fs.State()), input)
  {
    if input.Malformed? {
      return Err(ParseError(input.reason));
    }
    var path := Field(input.fields, "path");
    var content := "";
    var data := fs.ReadFile(path);
    if data.Ok? {
      content := data.value;
    }
    var newContent := ReplaceAll(content, Field(input.fields, "old_text"), Field(input.fields, "new_text"));
    var err := fs.WriteFile(path, newContent);
    if err.Some? {
      return Err("failed to write file: " + err.value);
    }
    return Ok("Successfully edited " + path);
  }

  /** `edit_file` succeeds exactly when the path is writable; it then reports
      the path and the file holds the replaced content, every other file
      unchanged. A failed write changes nothing. */
  lemma EditFileEffect(d: Disk, fields: map<string, string>)
    ensures var path := Field(fields, "path");
      var (r, d') := EditFileOutcome(d, Object(fields));
      && (r.Ok? <==> path in d.writable)
      && (r.Ok? ==> r.value == "Successfully edited " + path)
      && (r.Ok? ==> d' == d.(files := d.files[path := ReplaceAll(ContentOrEmpty(d, path), Field(fields, "old_text"), Field(fields, "new_text"))]))
      && (r.Err? ==> d' == d && r.error == "failed to write file: open " + path + ": permission denied")
  {
  }

  /** An old_text that does not occur leaves the file's content as it was. */
  lemma EditFileWithoutMatch(d: Disk, fields: map<string, string>)
    requires Field(fields, "path") in d.files
    requires Field(fields, "old_text") != "" && !Occurs(Field(fields, "old_text"), d.files[Field(fields, "path")])
    ensures EditFileOutcome(d, Object(fields)).1 == d
  {
    var path := Field(fields, "path");
    ReplaceAllAbsent(d.files[path], Field(fields, "old_text"), Field(fields, "new_text"));
    assert d.files[path := d.files[path]] == d.files;
  }

  /** A missing file is edited as empty content, so a writable missing path
      is created: holding exactly new_text when old_text is empty, and empty
      otherwise, since nothing else occurs in the empty content. */
  lemma EditFileCreates(d: Disk, path: string, oldText: string, newText: string)
    requires path !in d.files && path in d.writable
    ensures var (r, d') := EditFileOutcome(d, Object(map["path" := path, "old_text" := oldText, "new_text" := newText]));
      && r == Ok("Successfully edited " + path)
      && d'.files == d.files[path := if oldText == "" then newText else ""]
  {
    ReplaceAllOfEmpty(oldText, newText);
  }

  /** Each tool run on input that does not decode reports a parse error and
      leaves the disk alone. */
  lemma ParseFailureReported(d: Disk, f: Executor, reason: string)
    ensures RunExecutor(f, d, Malformed(reason)) == (Err("failed to parse input: " + reason), d)
  {
  }

  /** Dispatch from a tool definition's executor to its behaviour. */
  function RunExecutor(f: Executor, d: Disk, input: Payload): (r: (Result<string>, Disk))
    ensures f != EditFileFn ==> r.1 == d
  {
    match f
    case ReadFileFn => (ReadFileResult(d, input), d)
    case ListFilesFn => (ListFilesResult(d, input), d)
    case EditFileFn => EditFileOutcome(d, input)
  }
}
