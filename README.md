# A coding agent's tool-calling loop, in Dafny

This project models the core of a small Go coding agent. It has two parts.

**The agent loop (`agent.go`).** `Agent.SendMessage` first appends the user's text to an in-memory transcript. It then calls the model repeatedly:

- Each reply is appended as one assistant message.
- Every `tool_use` block in the reply runs in order through `executeTool`, which finds a tool by a linear scan of the names.
- All of a reply's tool results go back to the model together, as one user message.
- The loop stops when a reply has no `tool_use` block. It then returns that reply's text blocks, concatenated.

**The tool registry (`tools.go`).** It holds three tools: `read_file`, `list_files` and `edit_file`. `edit_file` works in three steps:

1. It reads the file. A file that cannot be read counts as empty.
2. It replaces every literal occurrence of `old_text` with `new_text`.
3. It writes the result back.

Modules:

- `Wrappers`: the `Option` and `Result` types.
- `Text` (`text.dfy`): `ReplaceAll` over `seq<char>`, with the leftmost non-overlapping reading of `strings.ReplaceAll`, and the lemmas that characterise it.
- `Files` (`files.dfy`): the operating system as the tools see it.
  - `Disk` maps paths to contents and holds the set of paths a write may create or replace.
  - For each walk root, `Disk` gives the sequence of entries a recursive walk visits, each with the error the walk reports for it, if any.
  - The `FileSystem` class holds that state as mutable fields.
- `Tools` (`tools.dfy`):
  - the tool definitions, the registry, and the mapping to the API's tool form;
  - for each executor, a specification function over `Disk` and a method over `FileSystem`, proved to agree with it.
- `Transcript`: content blocks and messages.
- `Client`: the model API as a scripted oracle, the `ScriptedClient` class.
  - The script is a fixed sequence of replies, each an error or an ordered list of blocks.
  - The client hands out one reply per call and records every request it receives.
  - Once the script is used up, every call fails. This is what bounds the source's unbounded `for` loop: `SendMessage` terminates on the length of the remaining script.
- `AgentLoop` (`agent.dfy`): the `Agent` class and the loop.
  - `Converse` is the loop as a pure function of the state it starts from: the transcript, the requests made so far, the remaining script and the disk.
  - `Agent.SendMessage` is an imperative `while` loop that is proved to end in exactly the state and result `Converse` gives.
  - The properties of the loop are lemmas about `Converse`.

Two choices of the Go code that a reader might not expect are modelled as written:

- The tool-result error flag is always `false`, even when the tool failed (`agent.go:94`).
- Duplicate tool names are not rejected; the first registered tool with a name wins (`agent.go:119-124`).

## Model

| member | source | states |
|---|---|---|
| AgentLoop.Agent.SendMessage | agent.go:45-113 | The answer and the final transcript, request log, remaining script and disk are exactly those of `SendOutcome`: the user text appended, then the loop `Converse`. |
| AgentLoop.SendStartsWithUser | agent.go:47 | The turn makes at least one call. The first call carries the old transcript plus exactly one user message holding the user text. Every later transcript extends that one. |
| AgentLoop.ConverseFirstCall | agent.go:56-63 | The loop calls the model at least once. Earlier requests are kept. The first new request carries the transcript as it was, with the model, 4096 tokens and every tool. Messages are only appended, never removed. |
| AgentLoop.ConverseChain | agent.go:69-112 | Between any two consecutive calls, exactly two messages are appended: first the reply, unchanged, as one assistant message; then one user message whose results answer the reply's tool uses one to one, in order, with the same IDs. Each such reply did contain a tool use. |
| AgentLoop.Continue | agent.go:69-111 | One round of tool use appends exactly two messages: the reply as one assistant message, then one user message whose results answer its tool uses one to one. |
| AgentLoop.CallOf | agent.go:58-63 | A call sends the given model, 4096 tokens, the whole transcript and one API tool per registered tool. |
| AgentLoop.ConverseRequests | agent.go:56-63 | Every call of a turn, not only the first, sends the model, 4096 tokens and every tool. What transcript each call carries is stated by `ConverseFirstCall` and `ConverseChain`. |
| AgentLoop.ConverseResults | agent.go:77-111 | The user message after each reply that asked for tools holds exactly the results of running that reply's tools, on the disk the earlier replies of the turn left. |
| AgentLoop.ConverseDisk | agent.go:56-112 | The disk after a turn is the disk before it, with the tools of every reply but the last run in order, each reply's on the disk the previous ones left. |
| AgentLoop.Converse | agent.go:56-112 | Every loop makes at least one call, and messages are only appended. |
| AgentLoop.SendOutcome | agent.go:45-113 | A turn makes at least one call, and its transcript starts with the old one followed by the user's text. |
| AgentLoop.ConverseLast | agent.go:58-108 | Exactly one script entry is used per call. If the last call failed, or no reply was left, the answer is "API call failed: " + the error, and nothing is appended after the last request's transcript. If the last reply succeeded, it had no tool use, its text is the answer, and it is the only message appended after that transcript. |
| AgentLoop.ImmediateAnswer | agent.go:100-108 | A first reply without tool uses ends the turn. Its text is returned, it is the only message appended, and exactly one call is recorded. |
| AgentLoop.FailureAfterToolUse | agent.go:65-67 | A failure after one completed round trip is reported as "API call failed: " + the error. The transcript keeps the round trip and gains nothing for the failed call. |
| AgentLoop.UnknownToolContinues | agent.go:85-111 | A request for an unregistered tool does not end the turn. The second call's transcript holds the tool use and the result "Error: tool not found: <name>". |
| AgentLoop.RunToolsAnswers | agent.go:80-97 | Running a reply's blocks yields one tool_result block per tool_use block, in the same order, with the same IDs, and never with the error flag set. |
| AgentLoop.RunToolsResultAt | agent.go:84-95 | The result for the tool use at position p is that tool's output, or "Error: " + its error, as run on the disk the earlier tool uses of the reply left. |
| AgentLoop.RunToolsAppend | agent.go:80-97 | Running two block lists one after the other is running them joined: the results are concatenated, and the second list starts on the disk the first left. |
| AgentLoop.RunToolsSnoc | agent.go:80-97 | One more block runs its tool, if it is a tool use, on the disk the earlier blocks left and appends its result. Any other block changes nothing. |
| AgentLoop.RunTools | agent.go:80-97 | There are as many results as tool uses, each a tool_result block with the error flag cleared. |
| AgentLoop.ResultText | agent.go:85-88 | A tool's output is passed on as is. An error becomes "Error: " + its message. |
| AgentLoop.ExecuteOutcome | agent.go:116-143 | An unknown name gives "tool not found: <name>" and leaves the disk alone. Only a call that reaches edit_file can change the disk. |
| AgentLoop.RunToolsNone | agent.go:77-97 | A reply without tool_use blocks runs nothing, yields no results and leaves the disk unchanged. |
| AgentLoop.RunToolsSingle | agent.go:80-95 | A single tool use yields a single result: the tool's output, or "Error: " + its error. |
| AgentLoop.UnknownToolAnswered | agent.go:126-127 | An unregistered name is answered in band with "Error: tool not found: <name>", and the disk is unchanged. |
| AgentLoop.Agent.RunToolUses | agent.go:77-97 | The flag is set exactly when the reply has a tool_use block. The results and the new disk are those of `RunTools`. |
| AgentLoop.Agent.ExecuteTool | agent.go:116-143 | The result and the new disk are those of `ExecuteOutcome`: lookup failure, then input re-encoding failure, then the tool's own outcome. |
| AgentLoop.Lookup | agent.go:118-128 | Nothing is found exactly when no tool has the name. A tool that is found has that name and is registered. |
| AgentLoop.LookupFirst | agent.go:119-124 | The tool found is the one at the first index carrying the name. |
| AgentLoop.FindTool | agent.go:118-124 | The scan with `break` returns what `Lookup` specifies. |
| AgentLoop.RegistryLookup | agent.go:118-124 | Every built-in tool is found under its own name. |
| AgentLoop.ResolveModel | agent.go:29-32 | An empty model name becomes "claude-3-5-sonnet-20241022". Any other name is kept. |
| AgentLoop.Agent.constructor | agent.go:21-42 | The agent has the built-in registry, an empty transcript and the resolved model. Its client is configured by `ClientOptions`. |
| AgentLoop.ApiTools | agent.go:50-53 | One API tool per registered tool, in registry order, each with the same name, description and schema. |
| AgentLoop.ConvertTools | agent.go:50-53 | The buffer-filling loop yields `ApiTools`. |
| AgentLoop.ConcatText | agent.go:101-106 | The `+=` loop yields `TextOf`: the text blocks' texts in order. |
| Transcript.ToolUses | agent.go:80-81 | Only tool_use blocks are kept, so there are never more of them than blocks. |
| Transcript.ToolUsesAppend | agent.go:80-81 | The tool uses of two block lists joined are their tool uses joined, in order. |
| Transcript.ToolUsesSingle | agent.go:80-81 | A single block is kept exactly when it is a tool_use block. Together with `ToolUsesAppend`, every tool_use block of a reply is kept, in order. |
| Transcript.HasToolUseSnoc | agent.go:80-82 | One more block sets the flag exactly when it is a tool_use block. The flag keeps any earlier value. |
| Transcript.HasToolUse | agent.go:77-82 | A reply needs tool execution exactly when its list of tool uses is not empty. |
| Transcript.ToolUsesFound | agent.go:80-82 | The list of tool uses is not empty exactly when some block is a tool_use block. |
| Transcript.TextOf | agent.go:101-106 | A reply without text blocks yields the empty string. |
| Transcript.TextOfAppend | agent.go:101-106 | The text of two block lists joined is their texts joined. |
| Transcript.TextOfTexts | agent.go:101-106 | A reply of text blocks only yields exactly their texts, concatenated. |
| Client.ClientOptions | agent.go:22-27 | The API key is always an option. The base URL is an option only when one is given. |
| Client.NextReply | agent.go:58-63 | The next scripted reply is consumed. With no reply left, the call fails and the script stays empty. |
| Client.ScriptedClient.New | agent.go:58-63 | The request is recorded, and the reply and remaining script follow `NextReply`. |
| Tools.ReadFileTool | tools.go:34-64 | read_file runs the read executor and requires exactly `path`, a declared property of its object schema. |
| Tools.ListFilesTool | tools.go:67-113 | list_files runs the listing executor, declares `path` and requires nothing. |
| Tools.EditFileTool | tools.go:116-162 | edit_file runs the edit executor and requires `path`, `old_text` and `new_text`, all declared properties of its object schema. |
| Tools.RunExecutor | agent.go:136-142 | Calling a tool's function: read_file and list_files never change the disk, so only edit_file can. |
| Tools.GetAllTools | tools.go:165-171 | Exactly three tools, in the order read_file, list_files, edit_file, with their executors. |
| Tools.RegistryWellFormed | tools.go:34-171 | The registry's names are pairwise distinct. Every schema is an object schema whose required names are declared properties. |
| Tools.ToAnthropicTool | tools.go:23-31 | Name, description (marked present) and input schema are copied unchanged. |
| Tools.Field | tools.go:49-51 | A field missing from the decoded input reads as the empty string. |
| Tools.ReadFileResult | tools.go:48-62 | Input that does not decode gives "failed to parse input". Otherwise the read succeeds exactly when the file exists and returns its contents; a failed read is wrapped as "failed to read file: " + the read error. |
| Tools.RunReadFile | tools.go:48-62 | The executor over the mutable file system agrees with `ReadFileResult`. |
| Tools.ListRoot | tools.go:88-90 | The walk root is never empty. It is the given path when one is given, and "." exactly when none is. |
| Tools.ListFilesDefaultsToDot | tools.go:88-90 | Listing with an empty path is listing ".". |
| Tools.Collect | tools.go:92-99 | A successful walk collects exactly one path per visited entry. |
| Tools.CollectMeaning | tools.go:92-99 | The walk accumulation succeeds exactly when no visited entry reports an error. It then holds every visited path exactly once, in visit order. Otherwise its error is that of the first failing entry. |
| Tools.CollectErrStays | tools.go:94-96 | Once the walk callback has returned an error, later entries do not change the outcome. |
| Tools.EncodePaths | tools.go:105 | A nil path list is encoded as `null`, and only it. Any other list is encoded as a JSON array in brackets. |
| Tools.ListFilesResult | tools.go:80-111 | Input that does not decode gives "failed to parse input". Otherwise the listing succeeds exactly when the walk from the root collects without error. |
| Tools.RunListFiles | tools.go:80-111 | The append loop over the walk agrees with `ListFilesResult`. |
| Tools.ListFilesOutcome | tools.go:92-110 | list_files succeeds exactly when no entry reports an error, and then encodes every walked path once, in order. Otherwise it fails with "failed to list files: " + the first error. |
| Tools.ContentOrEmpty | tools.go:148-151 | The starting content is the file's contents, or empty when the file cannot be read. |
| Tools.EditFileOutcome | tools.go:138-160 | Permissions and walks never change. A failure leaves the disk as it was. After a success, the set of paths is the old set plus the edited path; the contents are stated by `EditFileEffect`. |
| Tools.RunEditFile | tools.go:138-160 | The executor over the mutable file system agrees with `EditFileOutcome` on the result and the new file state. |
| Tools.EditFileEffect | tools.go:153-159 | edit_file succeeds exactly when the write succeeds and then reports "Successfully edited <path>". The file then holds the replaced content and no other file changes. A failed write is reported as "failed to write file" and changes nothing. |
| Tools.EditFileWithoutMatch | tools.go:153-159 | In an existing file, a non-empty old_text that does not occur leaves the disk as it was, whether or not the path is writable. |
| Tools.EditFileCreates | tools.go:148-159 | A missing file counts as empty content, so a writable missing path is created and the edit succeeds. The new file holds exactly new_text when old_text is empty, and is empty otherwise. |
| Tools.ParseFailureReported | tools.go:52-54 | Every tool reports input that does not decode as "failed to parse input: " + the reason and leaves the disk alone. |
| Text.ReplaceAllFirst | tools.go:153 | When the first occurrence of old_text starts at k: the text before k is kept, that occurrence becomes new_text, and replacement resumes right after it (the non-overlapping, left-to-right reading). |
| Text.ReplaceAllKeepsPrefix | tools.go:153 | The text before the first occurrence of a non-empty pattern is copied unchanged, and replacement goes on from there. |
| Text.ReplaceAll | tools.go:153 | A replacement as long as the pattern keeps the text's length. |
| Text.ReplaceAllAbsent | tools.go:153 | A non-empty pattern that does not occur leaves the text unchanged. |
| Text.ReplaceAllSelf | tools.go:153 | Replacing a pattern by itself is the identity, for every pattern including the empty one. |
| Text.ReplaceAllOfEmpty | tools.go:153 | On empty content only the empty pattern matches, so the result is new_text. Any other pattern leaves it empty. |
| Text.Interleave | tools.go:153 | With an empty pattern the result holds at least the content and one copy of the replacement. An empty replacement changes nothing. |
| Text.InterleaveLength | tools.go:153 | With an empty pattern, the result's length is the content's plus one replacement per character and one more. |
| Text.InterleaveGap | tools.go:153 | With an empty pattern, the k-th gap, for every k from 0 to the content's length, holds exactly the replacement. |
| Text.InterleaveLayout | tools.go:153 | With an empty pattern, character k of the content sits right after the k-th gap. With `InterleaveGap` and `InterleaveLength`, the result is the replacement before each character and once at the end. |
| Files.ReadAt | tools.go:56 | A read succeeds exactly when the file exists, and returns its contents. |
| Files.WriteAt | tools.go:155 | A write succeeds exactly when the path is writable. It then replaces that one file. Otherwise nothing changes. |
| Files.WalkFrom | tools.go:93 | A root that does not exist is reported to the walk callback as an error on the root. |
| Files.FileSystem.ReadFile | tools.go:56 | Reading the mutable file system agrees with `ReadAt`. |
| Files.FileSystem.WriteFile | tools.go:155 | Writing the mutable file system agrees with `WriteAt` on the error and the new state. |
| Files.FileSystem.Walk | tools.go:93 | The visits are those of `WalkFrom`. |

## Left out

- `main.go` is not part of this model: environment variables and the read-eval-print loop on standard input are I/O plumbing.
- The Anthropic SDK client, the request context and the HTTP transport are replaced by `ScriptedClient`.
  - Its reply sequence is a parameter of the agent's constructor.
  - The source loop is unbounded against a live API. The model's loop ends when the script is used up, because every later call fails.
- Block conversion is not modelled. `block.ToParam()` is taken to keep each block unchanged, and block types other than text, tool_use and tool_result are collapsed into one `OtherBlock`.
- JSON decoding is abstracted.
  - A tool's input is either a map of string fields or `Malformed` with a reason.
  - The re-encoding in `executeTool` either yields that payload or fails as `Unmarshalable`.
  - A field of another JSON type is not distinguished from a decoding failure.
- Tools.EncodePaths: JSON escaping covers only `"` and `\`. Control characters, HTML-sensitive characters and invalid UTF-8 are emitted unescaped, where Go escapes them.
- Operating-system semantics are abstracted.
  - Error texts are representative of Go's `*PathError` messages.
  - File permissions are a set of writable paths; the 0644 mode and parent directories are not modelled.
  - The walk order is whatever the `Disk` gives for a root.
  - A write does not change what a later walk visits.
  - A directory or unreadable file that `os.ReadFile` fails on looks the same as a missing file.
- Text.ReplaceAll: one `char` stands for one rune, and the content is not decoded as UTF-8. With an empty `old_text`, Go inserts the replacement around every rune of valid UTF-8; the model does this around every character.
- Concurrency and the `context.Background()` cancellation path are not modelled: the source runs one turn at a time.
