# Autometa error taxonomy in Dafny

Autometa is a pipeline that bins contigs from metagenomic assemblies. Its module
`autometa/common/exceptions.py` declares the errors the pipeline raises. The root
class is `AutometaError`. Five leaf classes derive from it directly:
`TableFormatError`, `BinningError`, `ChecksumMismatchError`, `ExternalToolError`
and `DatabaseOutOfSyncError`. Two of the leaves override `__str__`:

- an external-tool error renders as its captured error text, a newline, the
  label `command:`, a newline, and the command line;
- a database-out-of-sync error renders as its context value, a newline, and a
  fixed remediation text. That text names the NCBI taxonomy dump files and
  where to download the databases.

The model has two modules:

- `Strings` (`strings.dfy`) holds an `Option` type and a substring predicate
  `Contains`. It also holds `LastIndexOf` and `IndentedLines`, the text of a
  triple-quoted literal whose lines all carry the same indentation.
- `Exceptions` (`exceptions.dfy`) holds the taxonomy and its properties.
  - The datatype `AutometaError` has one constructor per class. `Root` stands
    for a bare `AutometaError` raised directly, since the base class can be
    instantiated as well.
  - The datatype `ErrorClass` lists the declared classes, with their declared
    bases (`BaseClass`). `IsSubclass` and `IsInstance` give catch-by-class:
    an `except C` clause catches `e` exactly when `IsInstance(e, C)` holds.
  - The kind predicates (`IsAutometaError`, `IsTableFormat`, …, bundled as
    `HasKind`) are proved to agree with that hierarchy.
  - `NewExternalToolError` and `NewDatabaseOutOfSyncError` model the two
    `__init__` methods. `RenderExternalTool` and `RenderDatabaseOutOfSync`
    model the two `__str__` methods. `Str` dispatches on the kind.

The remediation text is `RemediationBlock`. It is assembled from its six lines
and from named constants for the files and addresses it mentions
(`NodesDmp`, `NrUrl`, …). Joined by `IndentedLines`, they spell the
triple-quoted literal of `exceptions.py:89-96` character for character: 551
characters, starting with a newline, and each line after it indented by eight
spaces. The last line holds only those eight spaces. The pieces are named so that
the "mentions" lemmas can point at where each name occurs.

Everything is pure: each error value is built once and never changed, and
rendering is a function of the payload. Construction is total. The
constructors and `New…` functions have no precondition, so empty strings
are accepted.

## Model

| member | source | states |
|---|---|---|
| `Exceptions.NewExternalToolError` | autometa/common/exceptions.py:60-62 | constructing an external-tool error from any two strings gives an ExternalToolError instance whose `cmd` and `err` are exactly the arguments |
| `Exceptions.NewDatabaseOutOfSyncError` | autometa/common/exceptions.py:77-78 | constructing a database-out-of-sync error from any string gives a DatabaseOutOfSyncError instance whose `value` is exactly the argument |
| `Exceptions.RenderExternalTool` | autometa/common/exceptions.py:64-65 | the message is `|err| + |cmd| + 10` long, has `err` as prefix and `cmd` as suffix, and holds newline, `command:`, newline between them |
| `Exceptions.RenderDatabaseOutOfSync` | autometa/common/exceptions.py:80-97 | the message starts with `value` and a newline, and the rest of it is exactly the remediation text |
| `Exceptions.Str` | autometa/common/exceptions.py:64-97 | the module defines a message of its own exactly for external-tool and database-out-of-sync errors |
| `Exceptions.ParseExternalTool` | autometa/common/exceptions.py:64-65 | whatever it recovers is a single-line command and an error text whose rendering is the parsed string |
| `Exceptions.AllClassesDeriveFromRoot` | autometa/common/exceptions.py:11-68 | every declared class is a subclass of AutometaError, and the five leaf classes have AutometaError as their direct base |
| `Exceptions.CatchByRoot` | autometa/common/exceptions.py:11-68 | every error value satisfies the root predicate and is caught by `except AutometaError` |
| `Exceptions.KindMatchesClass` | autometa/common/exceptions.py:11-68 | each kind predicate holds exactly when `except` on its class catches the error (both directions) |
| `Exceptions.CatchByLeaf` | autometa/common/exceptions.py:17-68 | `except` on a leaf class catches exactly the instances constructed from that class |
| `Exceptions.LeafKindsDisjoint` | autometa/common/exceptions.py:17-68 | no error satisfies two different leaf kind predicates |
| `Exceptions.ExactlyOneLeafKind` | autometa/common/exceptions.py:11-68 | an error has a leaf kind exactly when it is not a bare AutometaError, and it then has only the kind of its own class |
| `Exceptions.BinningIsNotChecksumMismatch` | autometa/common/exceptions.py:29-47 | a BinningError is an AutometaError but never satisfies the checksum-mismatch kind |
| `Exceptions.StrExternalTool` | autometa/common/exceptions.py:64-65 | for all strings, the message of `ExternalToolError(cmd, err)` is exactly `err + "\n" + "command:" + "\n" + cmd` |
| `Exceptions.ExternalToolRenderCharacterized` | autometa/common/exceptions.py:65 | a string is the rendering of `(cmd, err)` if and only if it has the length, prefix, label and suffix stated for `RenderExternalTool` |
| `Exceptions.ParseRenderedExternalTool` | autometa/common/exceptions.py:60-65 | for a single-line command, both payload fields are recovered from the message, so rendering never loses either field |
| `Exceptions.ExternalToolRenderInjective` | autometa/common/exceptions.py:65 | two external-tool errors with single-line commands and equal messages have equal `cmd` and equal `err` |
| `Exceptions.ExternalToolRenderAmbiguous` | autometa/common/exceptions.py:65 | a command containing a newline and `command:` makes two different errors render the same message |
| `Exceptions.StrDatabaseOutOfSync` | autometa/common/exceptions.py:97 | for all strings, the message of `DatabaseOutOfSyncError(value)` is exactly `value + "\n" + RemediationBlock` |
| `Exceptions.RemediationIndependentOfValue` | autometa/common/exceptions.py:89-97 | for any two values, the messages are identical once each one's `value + "\n"` is removed |
| `Exceptions.DatabaseOutOfSyncRenderInjective` | autometa/common/exceptions.py:97 | different context values give different messages |
| `Exceptions.RemediationBlockShape` | autometa/common/exceptions.py:89-96 | the remediation text is 551 characters long, starts with a newline and ends with a newline followed by the eight-space indentation |
| `Exceptions.RemediationLine1Mentions` | autometa/common/exceptions.py:90 | the first line names `nodes.dmp`, `names.dmp`, `merged.dmp`, `prot.accession2taxid.gz` and `nr.gz` |
| `Exceptions.RemediationDownloadLinesMention` | autometa/common/exceptions.py:92-94 | the download lines name the three FTP addresses and `taxdump.tar.gz` |
| `Exceptions.RemediationMentionsResources` | autometa/common/exceptions.py:89-96 | the remediation text contains each of the six file names and the three download addresses |
| `Exceptions.DatabaseOutOfSyncMentionsResources` | autometa/common/exceptions.py:89-97 | whatever the context value, the rendered message contains each of those file names and addresses |

## Left out

- Raising, propagating and catching are not modelled. The kind predicates and `IsInstance` stand in for `except` clauses, and the method resolution order of multiple inheritance does not arise in a flat hierarchy.
- The messages of `AutometaError`, `TableFormatError`, `BinningError` and `ChecksumMismatchError` are not modelled. They come from Python's built-in `Exception.__str__`, which formats the `args` tuple. These kinds keep an optional message, and `Str` returns `None` for them.
- `Exceptions.Str`: this treats the payloads as strings. In Python, the f-strings call `str()` on any object, so a command passed as a list, or error output passed as bytes, would render by its representation.
- The `if __name__ == "__main__"` block (exceptions.py:100-103) prints a notice to the console. It is I/O and is not modelled.
- The pipeline code that raises these errors is not part of this model. That covers binning, table reading, checksum checks, samtools calls and the NCBI database loader.
