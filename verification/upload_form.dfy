/** The multipart body of an upload, built the same way by the files screen
    and by the API wrapper: the file under `file_upload`, then the description
    and the type, each only when it is a non-empty string. */
module UploadForm {
  import opened Json

  /** A file chosen by the user; only its name and byte size are observed. */
  datatype File = File(name: string, size: nat)

  /** One `FormData.append(name, value)` entry. */
  datatype FormField = FileField(name: string, file: File) | TextField(name: string, value: string)

  const FileKey := "file_upload"
  const DescriptionKey := "description"
  const TypeKey := "type"

  /** The text entries after the file, in append order. */
  function OptionalFields(description: string, fileType: string): seq<FormField> {
    (if description != "" then [TextField(DescriptionKey, description)] else [])
    + (if fileType != "" then [TextField(TypeKey, fileType)] else [])
  }

  /** The form the source builds; the contract lists the exact shapes it can
      take, so nothing else is ever appended and the order is fixed. */
  function Build(file: File, description: string, fileType: string): (fields: seq<FormField>)
    ensures |fields| >= 1 && fields[0] == FileField(FileKey, file)
    ensures description == "" && fileType == "" ==> fields == [FileField(FileKey, file)]
    ensures description != "" && fileType == "" ==>
              fields == [FileField(FileKey, file), TextField(DescriptionKey, description)]
    ensures description == "" && fileType != "" ==>
              fields == [FileField(FileKey, file), TextField(TypeKey, fileType)]
    ensures description != "" && fileType != "" ==>
              fields == [FileField(FileKey, file), TextField(DescriptionKey, description),
                         TextField(TypeKey, fileType)]
  {
    [FileField(FileKey, file)] + OptionalFields(description, fileType)
  }

  /** What a server reads for a text entry: the first value under `name`, or
      the empty string when the entry is absent. */
  function TextValue(fields: seq<FormField>, name: string): string {
    if |fields| == 0 then ""
    else if fields[0].TextField? && fields[0].name == name then fields[0].value
    else TextValue(fields[1..], name)
  }

  /** Whether an entry with the given name was appended at all. */
  predicate HasField(fields: seq<FormField>, name: string) {
    exists i :: 0 <= i < |fields| && fields[i].name == name
  }

  /** The draft read back from the form: the first file entry and the
      (defaulted) text entries. */
  function ReadBack(fields: seq<FormField>): Option<(File, string, string)> {
    if |fields| == 0 || !fields[0].FileField? then None
    else Some((fields[0].file, TextValue(fields, DescriptionKey), TextValue(fields, TypeKey)))
  }

  /** Building and reading back loses nothing: an omitted entry reads back as
      the empty string it stood for. */
  lemma BuildReadBack(file: File, description: string, fileType: string)
    ensures ReadBack(Build(file, description, fileType)) == Some((file, description, fileType))
  {
    var fields := Build(file, description, fileType);
    var rest := OptionalFields(description, fileType);
    assert fields[1..] == rest;
    if description != "" && fileType != "" {
      assert rest[1..] == [TextField(TypeKey, fileType)];
      assert TextValue(rest[1..], TypeKey) == fileType;
      assert TextValue(rest, TypeKey) == fileType;
      assert TextValue(rest, DescriptionKey) == description;
    } else if description != "" {
      assert TextValue(rest[1..], TypeKey) == "";
      assert TextValue(rest, TypeKey) == "";
      assert TextValue(rest, DescriptionKey) == description;
    } else if fileType != "" {
      assert TextValue(rest[1..], DescriptionKey) == "";
      assert TextValue(rest, DescriptionKey) == "";
      assert TextValue(rest, TypeKey) == fileType;
    } else {
      assert rest == [];
    }
  }

  /** A text entry is present exactly when its value is non-empty, and the
      form never carries a name other than the three keys. */
  lemma BuildPresence(file: File, description: string, fileType: string)
    ensures HasField(Build(file, description, fileType), DescriptionKey) <==> description != ""
    ensures HasField(Build(file, description, fileType), TypeKey) <==> fileType != ""
    ensures forall f :: f in Build(file, description, fileType) ==>
              f.name == FileKey || f.name == DescriptionKey || f.name == TypeKey
  {
    var fields := Build(file, description, fileType);
    if description != "" {
      assert fields[1].name == DescriptionKey;
    }
    if fileType != "" {
      assert fields[|fields| - 1].name == TypeKey;
    }
  }
}
