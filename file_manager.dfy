// The file manager screen (src/components/FileManager.tsx): the file list with
// its name search, folder navigation, the text editor, creation and deletion,
// and the icon and colour chosen for each entry.

module FileManager {
  import opened Wrappers
  import opened Text
  import opened Seqs
  import opened Kinds

  datatype FileItem = FileItem(
    id: string,
    name: string,
    nodeType: NodeType,
    size: Option<string>,
    modified: string,
    extension: Option<string>,
    content: Option<string>)

  /** The icon components `getFileIcon` chooses between. */
  datatype Icon = FolderIcon | FileTextIcon | ImageIcon | VideoIcon | MusicIcon | ArchiveIcon | CodeIcon | PlainFileIcon

  const JustNow := "только что"
  const HomePath := "/home/user/project"

  const TextExtensions: set<string> := {"txt", "md"}
  const ImageExtensions: set<string> := {"png", "jpg", "jpeg", "gif", "svg"}
  const VideoExtensions: set<string> := {"mp4", "avi", "mkv"}
  const AudioExtensions: set<string> := {"mp3", "wav", "flac"}
  const ArchiveExtensions: set<string> := {"zip", "rar", "7z"}
  const CodeExtensions: set<string> := ScriptExtensions + {"html", "css", "json"}
  const ScriptExtensions: set<string> := {"js", "ts", "jsx", "tsx"}

  const Seed1 := FileItem("1", "public", Folder, None, "2 часа назад", None, None)
  const Seed2 := FileItem("2", "src", Folder, None, "1 час назад", None, None)
  const Seed3 := FileItem("3", "components", Folder, None, "30 мин назад", None, None)
  const Seed4 := FileItem("4", "styles", Folder, None, "1 день назад", None, None)
  const Seed5 := FileItem("5", "package.json", File, Some("2.1 KB"), "3 дня назад", Some("json"),
    Some("{\n  \"name\": \"project\",\n  \"version\": \"1.0.0\",\n  \"scripts\": {\n    \"dev\": \"vite\",\n    \"build\": \"vite build\"\n  }\n}"))
  const Seed6 := FileItem("6", "README.md", File, Some("1.5 KB"), "5 дней назад", Some("md"),
    Some("# Проект\n\nОписание проекта..."))
  const Seed7 := FileItem("7", "vite.config.ts", File, Some("456 B"), "1 неделю назад", Some("ts"),
    Some("import { defineConfig } from \"vite\";\n\nexport default defineConfig({\n  // конфигурация\n});"))
  const Seed8 := FileItem("8", "logo.png", File, Some("45 KB"), "2 недели назад", Some("png"), None)
  const Seed9 := FileItem("9", "app.css", File, Some("3.2 KB"), "3 дня назад", Some("css"),
    Some("/* Основные стили */\nbody {\n  margin: 0;\n  font-family: Arial, sans-serif;\n}"))

  /** The nine entries the screen starts with. */
  const MockFiles: seq<FileItem> := [Seed1, Seed2, Seed3, Seed4, Seed5, Seed6, Seed7, Seed8, Seed9]

  // ---------------------------------------------------------------- icons and colours

  /** `getFileIcon`: folders get the folder icon; files are classified by extension,
      and a file with an unlisted or missing extension gets the plain file icon. */
  function FileIconOf(item: FileItem): (r: Icon)
    ensures item.nodeType == Folder <==> r == FolderIcon
    ensures item.nodeType == File ==>
      var ext := if item.extension.Some? then item.extension.value else "";
      && (r == FileTextIcon <==> ext in TextExtensions)
      && (r == ImageIcon <==> ext in ImageExtensions)
      && (r == VideoIcon <==> ext in VideoExtensions)
      && (r == MusicIcon <==> ext in AudioExtensions)
      && (r == ArchiveIcon <==> ext in ArchiveExtensions)
      && (r == CodeIcon <==> ext in CodeExtensions)
      && (ext !in TextExtensions + ImageExtensions + VideoExtensions + AudioExtensions + ArchiveExtensions + CodeExtensions
          ==> r == PlainFileIcon)
  {
    if item.nodeType == Folder then FolderIcon
    else if item.extension.None? then PlainFileIcon
    else
      var ext := item.extension.value;
      if ext == "txt" || ext == "md" then FileTextIcon
      else if ext == "png" || ext == "jpg" || ext == "jpeg" || ext == "gif" || ext == "svg" then ImageIcon
      else if ext == "mp4" || ext == "avi" || ext == "mkv" then VideoIcon
      else if ext == "mp3" || ext == "wav" || ext == "flac" then MusicIcon
      else if ext == "zip" || ext == "rar" || ext == "7z" then ArchiveIcon
      else if ext == "js" || ext == "ts" || ext == "jsx" || ext == "tsx" || ext == "html" || ext == "css"
           || ext == "json" then CodeIcon
      else PlainFileIcon
  }

  const FolderColor := "text-blue-500 dark:text-blue-400"
  const MutedColor := "text-muted-foreground"
  const ImageColor := "text-green-600 dark:text-green-400"
  const VideoColor := "text-purple-600 dark:text-purple-400"
  const AudioColor := "text-pink-600 dark:text-pink-400"
  const ArchiveColor := "text-orange-600 dark:text-orange-400"
  const ScriptColor := "text-yellow-600 dark:text-yellow-400"
  const HtmlColor := "text-red-600 dark:text-red-400"
  const CssColor := "text-cyan-600 dark:text-cyan-400"
  const JsonColor := "text-amber-600 dark:text-amber-400"

  /** `getFileColor`: the same grouping as the icons, except that code files are
      coloured per language; an unlisted or missing extension gets the muted colour. */
  function FileColorOf(item: FileItem): (r: string)
    ensures item.nodeType == Folder ==> r == FolderColor
    ensures item.nodeType == File ==>
      var ext := if item.extension.Some? then item.extension.value else "";
      && (ext in TextExtensions ==> r == MutedColor)
      && (ext in ImageExtensions ==> r == ImageColor)
      && (ext in VideoExtensions ==> r == VideoColor)
      && (ext in AudioExtensions ==> r == AudioColor)
      && (ext in ArchiveExtensions ==> r == ArchiveColor)
      && (ext in ScriptExtensions ==> r == ScriptColor)
      && (ext == "html" ==> r == HtmlColor) && (ext == "css" ==> r == CssColor) && (ext == "json" ==> r == JsonColor)
      && (ext !in TextExtensions + ImageExtensions + VideoExtensions + AudioExtensions + ArchiveExtensions + CodeExtensions
          ==> r == MutedColor)
  {
    if item.nodeType == Folder then FolderColor
    else if item.extension.None? then MutedColor
    else
      var ext := item.extension.value;
      if ext == "txt" || ext == "md" then MutedColor
      else if ext == "png" || ext == "jpg" || ext == "jpeg" || ext == "gif" || ext == "svg" then ImageColor
      else if ext == "mp4" || ext == "avi" || ext == "mkv" then VideoColor
      else if ext == "mp3" || ext == "wav" || ext == "flac" then AudioColor
      else if ext == "zip" || ext == "rar" || ext == "7z" then ArchiveColor
      else if ext == "js" || ext == "ts" || ext == "jsx" || ext == "tsx" then ScriptColor
      else if ext == "html" then HtmlColor
      else if ext == "css" then CssColor
      else if ext == "json" then JsonColor
      else MutedColor
  }

  // ---------------------------------------------------------------- records

  /** `name.split(".").pop()`: the text after the last dot, or the whole name
      when it has none. */
  function AfterLastDot(name: string): (r: string)
    ensures |r| <= |name| && r == name[|name| - |r|..]
    ensures '.' !in r
    ensures |r| < |name| ==> name[|name| - |r| - 1] == '.'
  {
    if name == [] then []
    else if name[|name| - 1] == '.' then []
    else AfterLastDot(name[..|name| - 1]) + [name[|name| - 1]]
  }

  /** The entry `handleCreateFile` builds: files get a zero size, an empty body and
      the extension of their name; folders get none of the three. */
  function NewItem(name: string, nodeType: NodeType, nowMillis: int): (r: FileItem)
    ensures r.id == DecimalString(nowMillis) && r.name == name && r.nodeType == nodeType
    ensures r.modified == JustNow
    ensures nodeType == File ==> r.size == Some("0 B") && r.content == Some("") && r.extension == Some(AfterLastDot(name))
    ensures nodeType == Folder ==> r.size.None? && r.content.None? && r.extension.None?
  {
    if nodeType == File then
      FileItem(DecimalString(nowMillis), name, File, Some("0 B"), JustNow, Some(AfterLastDot(name)), Some(""))
    else
      FileItem(DecimalString(nowMillis), name, nodeType, None, JustNow, None, None)
  }

  /** A created markdown file is shown with the text icon. */
  lemma CreatedMarkdownFileIcon(nowMillis: int)
    ensures FileIconOf(NewItem("notes.md", File, nowMillis)) == FileTextIcon
  {
    var name := "notes.md";
    assert name[..|name| - 1] == "notes.m" && name[..|name| - 1][..6] == "notes.";
    assert AfterLastDot("notes.") == [];
    assert AfterLastDot(name) == "md";
  }

  /** The entry after `handleSaveFile`: new body, fresh "modified" stamp. */
  function Saved(f: FileItem, content: string): (r: FileItem)
    ensures r.content == Some(content) && r.modified == JustNow
    ensures r.id == f.id && r.name == f.name && r.nodeType == f.nodeType
    ensures r.size == f.size && r.extension == f.extension
  {
    f.(content := Some(content), modified := JustNow)
  }

  function SavedWith(content: string): FileItem -> FileItem {
    f => Saved(f, content)
  }

  // ---------------------------------------------------------------- filters

  predicate NameMatches(f: FileItem, query: string) {
    Contains(Lower(f.name), Lower(query))
  }

  function NameMatchesBy(query: string): FileItem -> bool {
    f => NameMatches(f, query)
  }

  /** `filteredFiles`: the entries whose name contains the query, ignoring case, in list order. */
  function FilteredFiles(files: seq<FileItem>, query: string): (r: seq<FileItem>)
    ensures IsSubsequence(r, files)
    ensures forall i :: 0 <= i < |r| ==> NameMatches(r[i], query)
    ensures forall i :: 0 <= i < |files| && NameMatches(files[i], query) ==> files[i] in r
  {
    Filter(files, NameMatchesBy(query))
  }

  /** An empty search shows every entry. */
  lemma EmptySearchShowsAll(files: seq<FileItem>)
    ensures FilteredFiles(files, "") == files
  {
    forall f | f in files
      ensures NameMatches(f, "")
    {
      ContainsEmpty(Lower(f.name));
    }
    FilterKeepsAll(files, NameMatchesBy(""));
  }

  function HasId(id: string): FileItem -> bool {
    (f: FileItem) => f.id == id
  }

  function HasOtherId(id: string): FileItem -> bool {
    (f: FileItem) => f.id != id
  }

  /** Deleting a freshly created entry (appended at the end) gives back the list. */
  lemma DeleteUndoesCreate(files: seq<FileItem>, item: FileItem)
    requires forall f :: f in files ==> f.id != item.id
    ensures Filter(files + [item], HasOtherId(item.id)) == files
  {
    FilterConcat(files, [item], HasOtherId(item.id));
    FilterKeepsAll(files, HasOtherId(item.id));
    assert Filter([item], HasOtherId(item.id)) == Filter([item][1..], HasOtherId(item.id));
    assert files + [] == files;
  }

  // ---------------------------------------------------------------- the screen

  class FileManager {
    var files: seq<FileItem>
    var selectedFile: Option<FileItem>
    var editingFile: Option<FileItem>
    var searchQuery: string
    var currentPath: string
    var editContent: string
    var isCreateDialogOpen: bool
    var newFileName: string
    var newFileType: NodeType

    constructor ()
      ensures files == MockFiles && selectedFile.None? && editingFile.None?
      ensures searchQuery == "" && currentPath == HomePath && editContent == ""
      ensures !isCreateDialogOpen && newFileName == "" && newFileType == File
    {
      files := MockFiles;
      selectedFile := None;
      editingFile := None;
      searchQuery := "";
      currentPath := HomePath;
      editContent := "";
      isCreateDialogOpen := false;
      newFileName := "";
      newFileType := File;
    }

    method SetSearchQuery(query: string)
      modifies this
      ensures searchQuery == query
      ensures files == old(files) && selectedFile == old(selectedFile) && currentPath == old(currentPath)
      ensures editingFile == old(editingFile) && editContent == old(editContent)
      ensures isCreateDialogOpen == old(isCreateDialogOpen) && newFileName == old(newFileName) && newFileType == old(newFileType)
    {
      searchQuery := query;
    }

    /** The create dialog's inputs. */
    method SetNewFile(name: string, nodeType: NodeType)
      modifies this
      ensures newFileName == name && newFileType == nodeType
      ensures files == old(files) && selectedFile == old(selectedFile) && currentPath == old(currentPath)
      ensures editingFile == old(editingFile) && editContent == old(editContent)
      ensures searchQuery == old(searchQuery) && isCreateDialogOpen == old(isCreateDialogOpen)
    {
      newFileName := name;
      newFileType := nodeType;
    }

    /** The editor's text area. */
    method SetEditContent(text: string)
      modifies this
      ensures editContent == text
      ensures files == old(files) && selectedFile == old(selectedFile) && editingFile == old(editingFile)
      ensures searchQuery == old(searchQuery) && currentPath == old(currentPath)
      ensures isCreateDialogOpen == old(isCreateDialogOpen) && newFileName == old(newFileName) && newFileType == old(newFileType)
    {
      editContent := text;
    }

    /** `handleFileClick`: a folder is entered by appending its name to the path;
        a file is selected and the path stays. */
    method HandleFileClick(f: FileItem)
      modifies this
      ensures f.nodeType == Folder ==> currentPath == old(currentPath) + "/" + f.name && selectedFile == old(selectedFile)
      ensures f.nodeType == File ==> selectedFile == Some(f) && currentPath == old(currentPath)
      ensures files == old(files) && editingFile == old(editingFile) && editContent == old(editContent)
      ensures searchQuery == old(searchQuery)
      ensures isCreateDialogOpen == old(isCreateDialogOpen) && newFileName == old(newFileName) && newFileType == old(newFileType)
    {
      if f.nodeType == Folder {
        currentPath := currentPath + "/" + f.name;
      } else {
        selectedFile := Some(f);
      }
    }

    /** `handleEditFile`: the editor opens on the entry's body, or on nothing when it has none. */
    method HandleEditFile(f: FileItem)
      modifies this
      ensures editingFile == Some(f)
      ensures f.content.Some? ==> editContent == f.content.value
      ensures f.content.None? ==> editContent == ""
      ensures files == old(files) && selectedFile == old(selectedFile) && currentPath == old(currentPath)
      ensures searchQuery == old(searchQuery)
      ensures isCreateDialogOpen == old(isCreateDialogOpen) && newFileName == old(newFileName) && newFileType == old(newFileType)
    {
      editingFile := Some(f);
      editContent := f.content.GetOr("");
    }

    /** `handleSaveFile`: with an entry open, every entry with its id gets the edited
        body and a fresh stamp; the editor closes. A selected entry with that id is
        replaced by the OPENED copy with the new body, keeping that copy's stamp. */
    method HandleSaveFile()
      modifies this
      ensures old(editingFile).None? ==> unchanged(this)
      ensures old(editingFile).Some? ==>
        var openedFile := old(editingFile).value;
        && files == MapWhere(old(files), HasId(openedFile.id), SavedWith(old(editContent)))
        && editingFile.None? && editContent == ""
        && (if old(selectedFile).Some? && old(selectedFile).value.id == openedFile.id
            then selectedFile == Some(openedFile.(content := Some(old(editContent))))
            else selectedFile == old(selectedFile))
        && currentPath == old(currentPath) && newFileName == old(newFileName) && newFileType == old(newFileType)
        && searchQuery == old(searchQuery) && isCreateDialogOpen == old(isCreateDialogOpen)
    {
      if editingFile.Some? {
        var openedFile := editingFile.value;
        var text := editContent;
        files := MapWhere(files, HasId(openedFile.id), SavedWith(text));
        editingFile := None;
        editContent := "";
        if selectedFile.Some? && selectedFile.value.id == openedFile.id {
          selectedFile := Some(openedFile.(content := Some(text)));
        }
      }
    }

    /** `handleDeleteFile`: drops every entry with that id and clears a matching selection. */
    method HandleDeleteFile(f: FileItem)
      modifies this
      ensures files == Filter(old(files), HasOtherId(f.id))
      ensures old(selectedFile).Some? && old(selectedFile).value.id == f.id ==> selectedFile.None?
      ensures !(old(selectedFile).Some? && old(selectedFile).value.id == f.id) ==> selectedFile == old(selectedFile)
      ensures currentPath == old(currentPath) && editingFile == old(editingFile)
      ensures searchQuery == old(searchQuery) && editContent == old(editContent)
      ensures isCreateDialogOpen == old(isCreateDialogOpen) && newFileName == old(newFileName) && newFileType == old(newFileType)
    {
      files := Filter(files, HasOtherId(f.id));
      if selectedFile.Some? && selectedFile.value.id == f.id {
        selectedFile := None;
      }
    }

    /** `handleCreateFile`: a blank name does nothing; otherwise the entry, carrying the
        name as typed, goes LAST, the name box is emptied and the dialog closes. */
    method HandleCreateFile(nowMillis: int)
      modifies this
      ensures Trim(old(newFileName)) == "" ==> unchanged(this)
      ensures Trim(old(newFileName)) != "" ==>
        && files == old(files) + [NewItem(old(newFileName), old(newFileType), nowMillis)]
        && newFileName == "" && !isCreateDialogOpen && newFileType == old(newFileType)
        && selectedFile == old(selectedFile) && editingFile == old(editingFile)
        && currentPath == old(currentPath) && searchQuery == old(searchQuery) && editContent == old(editContent)
    {
      if Trim(newFileName) != "" {
        files := files + [NewItem(newFileName, newFileType, nowMillis)];
        newFileName := "";
        isCreateDialogOpen := false;
      }
    }
  }
}
