/**
 * The exception hierarchy of src/core/exceptions.py as values, plus the
 * exceptions the code lets escape unwrapped.
 */
module Errors {

  datatype Error =
    | ConfigError         // the config store is unreadable, malformed, or could not be saved
    | FileOperationError  // a copy, mkdir or symlink step of an import or link failed
    | BackupError         // the copy that guards a forced overwrite failed
    | OsError             // an OSError raised outside any try block; also the model's own
                          // outcome for `resolve()` on a symbolic-link loop, where Python
                          // raises RuntimeError before 3.13 and returns the path in 3.13
    | HomeUnknown         // the RuntimeError of `expanduser()` for a `~user` it cannot look up
}
