/** The two forms with logic of their own (shop/forms.py): the import form's file check and
    the registration form's `save`. */
module Forms {
  import opened Base
  import opened Text
  import opened Customers

  /** The message `clean_file` raises. */
  const ExcelOnly: string := "Поддерживаются только Excel файлы (.xlsx, .xls)"

  /** An uploaded file: its name and its bytes. */
  datatype Upload = Upload(name: string, data: seq<bv8>)

  /** An Excel file name, by Python's `name.endswith(('.xlsx', '.xls'))`. */
  predicate IsExcelName(name: string) {
    EndsWith(name, ".xlsx") || EndsWith(name, ".xls")
  }

  /** `ProductImportForm.clean_file`: the file itself when its name is an Excel name, else the
      `ValidationError` message. */
  function CleanFile(file: Upload): (r: Result<Upload, string>)
    ensures r.Success? <==> IsExcelName(file.name)
    ensures r.Success? ==> r.value == file
    ensures r.Failure? ==> r.error == ExcelOnly
  {
    if IsExcelName(file.name) then Success(file) else Failure(ExcelOnly)
  }

  /** The names `clean_file` accepts are exactly those whose last four characters are ".xls",
      or whose last five are ".xlsx". */
  lemma CleanFileLastChars(file: Upload)
    ensures CleanFile(file).Success? <==>
      (|file.name| >= 4 && file.name[|file.name| - 4..] == ".xls") ||
      (|file.name| >= 5 && file.name[|file.name| - 5..] == ".xlsx")
  {
  }

  /** The check is case-sensitive: an upper-case extension is refused. */
  lemma CleanFileCaseSensitive(data: seq<bv8>)
    ensures CleanFile(Upload("X.XLSX", data)) == Failure(ExcelOnly)
  {
    assert "X.XLSX"[1..] != ".xlsx";
    assert "X.XLSX"[2..] != ".xls";
  }

  /** Only the suffix counts: a name that is nothing but ".xls" is accepted. */
  lemma CleanFileBareSuffix(data: seq<bv8>)
    ensures CleanFile(Upload(".xls", data)) == Success(Upload(".xls", data))
  {
    assert ".xls"[0..] == ".xls";
  }

  /** Cleaning a cleaned file changes nothing. */
  lemma CleanFileIdempotent(file: Upload)
    requires CleanFile(file).Success?
    ensures CleanFile(CleanFile(file).value) == CleanFile(file)
  {
  }

  /** The cleaned fields of the registration form. */
  datatype Registration = Registration(email: string, phone: string, firstName: string, lastName: string)

  /** The account `UserCreationForm.save(commit=False)` builds from the form's fields: the
      model's defaults for everything else, no username yet. */
  function FormUser(form: Registration): (r: Customer)
    ensures r.email == form.email && r.phone == form.phone
    ensures r.firstName == form.firstName && r.lastName == form.lastName
    ensures r.patronymic == "" && !r.isStaff && !r.isSuperuser && r.isActive && r.username == None
  {
    Customer(form.email, form.phone, form.firstName, form.lastName, "", false, false, true, None)
  }

  /** `CustomerRegistrationForm.save(commit)`: the account built from the form gets its email
      as username, and is saved to `db` only when `commit` is set.  The account is returned in
      both cases; the stored row drops the username, which is not a column. */
  method RegistrationSave(form: Registration, commit: bool, db: CustomerManager) returns (user: Customer)
    modifies db
    ensures user == FormUser(form).(username := Some(form.email))
    ensures user.username == Some(user.email)
    ensures db.rows == old(db.rows) + (if commit then [user.(username := None)] else [])
  {
    user := FormUser(form);
    user := user.(username := Some(user.email));
    if commit {
      db.rows := db.rows + [user.(username := None)];
    }
  }
}
