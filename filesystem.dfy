/**
 * The file system as the program uses it: `File.WriteAllText`,
 * `Directory.Exists` and `Directory.CreateDirectory`. Documents stand for
 * their serialised JSON text. Which operations fail is fixed by `faults`: an
 * operation on a faulted location throws an exception carrying that message.
 * Every write is recorded, failed or not, in the log `attempts`.
 */
module Files {
  import opened Documents

  datatype Location = File(dir: string, name: string) | Dir(path: string)

  /** How an operation ended: normally, or by throwing an exception with a message. */
  datatype Status = Done | Threw(message: string)

  datatype WriteAttempt = WriteAttempt(target: Location, document: Document, status: Status)

  function StatusAt(faults: map<Location, string>, location: Location): (r: Status)
    ensures r.Threw? <==> location in faults
    ensures r.Threw? ==> r.message == faults[location]
  {
    if location in faults then Threw(faults[location]) else Done
  }

  /** The write of `document` to `name` in `dir`, as the log records it. */
  function Attempt(faults: map<Location, string>, dir: string, name: string, document: Document): (r: WriteAttempt)
    ensures r.target == File(dir, name) && r.document == document
    ensures r.status == StatusAt(faults, File(dir, name))
  {
    WriteAttempt(File(dir, name), document, StatusAt(faults, File(dir, name)))
  }

  class FileSystem {
    const faults: map<Location, string>
    var directories: set<string>
    var attempts: seq<WriteAttempt>

    constructor (faults: map<Location, string>, directories: set<string>)
      ensures this.faults == faults && this.directories == directories && attempts == []
    {
      this.faults := faults;
      this.directories := directories;
      attempts := [];
    }

    /** `File.WriteAllText(Path.Combine(dir, name), document)`. */
    method WriteAllText(dir: string, name: string, document: Document) returns (status: Status)
      modifies this`attempts
      ensures status == StatusAt(faults, File(dir, name))
      ensures attempts == old(attempts) + [WriteAttempt(File(dir, name), document, status)]
    {
      status := StatusAt(faults, File(dir, name));
      attempts := attempts + [WriteAttempt(File(dir, name), document, status)];
    }

    /** `Directory.Exists(path)`. */
    method Exists(path: string) returns (present: bool)
      ensures present <==> path in directories
    {
      present := path in directories;
    }

    /** `Directory.CreateDirectory(path)`. */
    method CreateDirectory(path: string) returns (status: Status)
      modifies this`directories
      ensures status == StatusAt(faults, Dir(path))
      ensures directories == if status.Done? then old(directories) + {path} else old(directories)
    {
      status := StatusAt(faults, Dir(path));
      if status.Done? {
        directories := directories + {path};
      }
    }
  }
}
