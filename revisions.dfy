/**
 * Where the code as written and its evident intent differ, the model keeps
 * both: `AsWritten` follows the code, `Corrected` the intended behaviour.
 */
module Revisions {
  datatype Revision = AsWritten | Corrected
}
