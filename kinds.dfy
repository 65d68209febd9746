// Enumerations that the backend records (src/*.rs) and the admin screens
// (src/components/*.tsx) share under the same lower-case names.

module Kinds {
  /** `Member` is the role written `user`. */
  datatype UserRole = Admin | Moderator | Member | Banned

  datatype UserStatus = Active | Inactive | Suspended

  datatype ArticleStatus = Draft | Published | Archived

  datatype NodeType = File | Folder
}
