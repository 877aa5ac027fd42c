/**
 * The client form (`ClienteModal`): the field rules registered with the form library (every field
 * required; CPF and e-mail checked against a pattern), the values the form is reset to on opening, and
 * the choice between updating the client being edited and creating a new one.
 */
module ClienteModal {
  import opened Wrappers
  import opened Types
  import Text
  import UseApi

  const NOME_REQUIRED := "Nome é obrigatório"
  const CPF_REQUIRED := "CPF é obrigatório"
  const CPF_FORMAT := "CPF deve estar no formato 000.000.000-00"
  const ENDERECO_REQUIRED := "Endereço é obrigatório"
  const TELEFONE_REQUIRED := "Telefone é obrigatório"
  const EMAIL_REQUIRED := "Email é obrigatório"
  const EMAIL_FORMAT := "Email inválido"
  const UPDATED_MESSAGE := "Cliente atualizado com sucesso!"
  const CREATED_MESSAGE := "Cliente cadastrado com sucesso!"

  // ---- CPF: /^\d{3}\.\d{3}\.\d{3}-\d{2}$/ ----

  /** Positions 3 and 7 hold '.', position 11 holds '-', every other of the 14 positions a digit. */
  predicate ValidCpf(s: string)
  {
    |s| == 14
    && s[3] == '.' && s[7] == '.' && s[11] == '-'
    && forall i :: 0 <= i < 14 && i != 3 && i != 7 && i != 11 ==> Text.IsDigit(s[i])
  }

  predicate AllDigits(d: string) { forall i :: 0 <= i < |d| ==> Text.IsDigit(d[i]) }

  /** The eleven digits laid out as the mask shows them. */
  function FormatCpf(d: string): (s: string)
    requires |d| == 11
  {
    d[..3] + "." + d[3..6] + "." + d[6..9] + "-" + d[9..]
  }

  /** The eleven digits of a CPF, without the separators. */
  function CpfDigits(s: string): (d: string)
    requires |s| == 14
  {
    s[..3] + s[4..7] + s[8..11] + s[12..]
  }

  /** Exactly the formatted digit strings pass the CPF pattern, and a valid CPF is the format of its digits. */
  lemma CpfFormatRoundTrip(d: string, s: string)
    ensures |d| == 11 ==> (ValidCpf(FormatCpf(d)) <==> AllDigits(d))
    ensures ValidCpf(s) ==> AllDigits(CpfDigits(s)) && FormatCpf(CpfDigits(s)) == s
  {
    if |d| == 11 {
      var f := FormatCpf(d);
      assert forall i :: 0 <= i < 11 ==> d[i] == f[if i < 3 then i else if i < 6 then i + 1 else if i < 9 then i + 2 else i + 3];
    }
    if ValidCpf(s) {
      var c := CpfDigits(s);
      assert forall i :: 0 <= i < 11 ==> c[i] == s[if i < 3 then i else if i < 6 then i + 1 else if i < 9 then i + 2 else i + 3];
      assert FormatCpf(c) == s;
    }
  }

  // ---- E-mail: /^[A-Z0-9._%+-]+@[A-Z0-9.-]+\.[A-Z]{2,}$/i ----

  predicate IsLocalChar(c: char)
  {
    Text.IsLetter(c) || Text.IsDigit(c) || c == '.' || c == '_' || c == '%' || c == '+' || c == '-'
  }

  predicate IsDomainChar(c: char)
  {
    Text.IsLetter(c) || Text.IsDigit(c) || c == '.' || c == '-'
  }

  predicate AllLocal(t: string) { forall i :: 0 <= i < |t| ==> IsLocalChar(t[i]) }
  predicate AllDomain(t: string) { forall i :: 0 <= i < |t| ==> IsDomainChar(t[i]) }
  predicate AllLetters(t: string) { forall i :: 0 <= i < |t| ==> Text.IsLetter(t[i]) }

  /** The pattern read directly: some '@' at `a` and some '.' at `d` split the address into its three parts. */
  ghost predicate EmailPattern(s: string)
  {
    exists a, d :: 0 < a && a + 2 <= d && d + 3 <= |s| && s[a] == '@' && s[d] == '.'
      && AllLocal(s[..a]) && AllDomain(s[a + 1..d]) && AllLetters(s[d + 1..])
  }

  /** Index of the last occurrence of `c` in `s`. */
  function LastIndex(s: string, c: char): (i: nat)
    requires c in s
    ensures i < |s| && s[i] == c && c !in s[i + 1..]
  {
    if s[|s| - 1] == c then |s| - 1
    else
      assert s == s[..|s| - 1] + [s[|s| - 1]];
      LastIndex(s[..|s| - 1], c)
  }

  /**
   * The pattern decided by splitting once: the first '@' ends the local part (which cannot hold '@'),
   * and the last '.' of the rest starts the top-level part (which cannot hold '.').
   */
  predicate ValidEmail(s: string)
  {
    if '@' !in s then false
    else
      var a := Text.FirstIndex(s, '@');
      a > 0 && AllLocal(s[..a]) && ValidDomain(s[a + 1..])
  }

  /** The part after the '@': a non-empty domain, then '.', then at least two letters after the last '.'. */
  predicate ValidDomain(domain: string)
  {
    if '.' !in domain then false
    else
      var d := LastIndex(domain, '.');
      d > 0 && |domain| - d - 1 >= 2 && AllDomain(domain[..d]) && AllLetters(domain[d + 1..])
  }

  /** The split-once decision accepts exactly the addresses the pattern describes. */
  lemma ValidEmailMatchesPattern(s: string)
    ensures ValidEmail(s) <==> EmailPattern(s)
  {
    if ValidEmail(s) {
      ValidEmailHasPattern(s);
    }
    if EmailPattern(s) {
      var a, d :| 0 < a && a + 2 <= d && d + 3 <= |s| && s[a] == '@' && s[d] == '.'
        && AllLocal(s[..a]) && AllDomain(s[a + 1..d]) && AllLetters(s[d + 1..]);
      PatternIsValidEmail(s, a, d);
    }
  }

  lemma ValidEmailHasPattern(s: string)
    requires ValidEmail(s)
    ensures EmailPattern(s)
  {
    var a := Text.FirstIndex(s, '@');
    var domain := s[a + 1..];
    assert ValidDomain(domain);
    var d := LastIndex(domain, '.');
    var dd := a + 1 + d;
    assert s[a + 1..dd] == domain[..d];
    assert s[dd + 1..] == domain[d + 1..];
    assert s[dd] == '.';
  }

  lemma PatternIsValidEmail(s: string, a: nat, d: nat)
    requires 0 < a && a + 2 <= d && d + 3 <= |s| && s[a] == '@' && s[d] == '.'
    requires AllLocal(s[..a]) && AllDomain(s[a + 1..d]) && AllLetters(s[d + 1..])
    ensures ValidEmail(s)
  {
    assert forall i :: 0 <= i < a ==> s[i] == s[..a][i];
    FirstIndexIs(s, '@', a);
    var domain := s[a + 1..];
    assert domain[..d - a - 1] == s[a + 1..d];
    assert domain[d - a..] == s[d + 1..];
    DomainIsValid(domain, d - a - 1);
  }

  lemma DomainIsValid(domain: string, d: nat)
    requires 0 < d && d + 3 <= |domain| && domain[d] == '.'
    requires AllDomain(domain[..d]) && AllLetters(domain[d + 1..])
    ensures ValidDomain(domain)
  {
    assert forall i :: d < i < |domain| ==> domain[i] == domain[d + 1..][i - d - 1];
    LastIndexIs(domain, '.', d);
  }

  /** A position holding `c` with no `c` before it is the first index of `c`. */
  lemma FirstIndexIs(s: string, c: char, a: nat)
    requires a < |s| && s[a] == c
    requires forall i :: 0 <= i < a ==> s[i] != c
    ensures c in s && Text.FirstIndex(s, c) == a
  {
  }

  /** A position holding `c` with no `c` after it is the last index of `c`. */
  lemma LastIndexIs(s: string, c: char, d: nat)
    requires d < |s| && s[d] == c
    requires forall i :: d < i < |s| ==> s[i] != c
    ensures c in s && LastIndex(s, c) == d
  {
  }

  /** An ordinary address passes. */
  lemma EmailAccepted()
    ensures ValidEmail("ana@loja.com")
  {
    var s := "ana@loja.com";
    assert s[..3] == "ana" && s[4..8] == "loja" && s[9..] == "com";
    PatternIsValidEmail(s, 3, 8);
  }

  /** A one-letter ending fails: the part after the last '.' needs at least two letters. */
  lemma EmailOneLetterEndingRejected()
    ensures !ValidEmail("ana@loja.c")
  {
    var s := "ana@loja.c";
    FirstIndexIs(s, '@', 3);
    var domain := s[4..];
    assert domain == "loja.c";
    LastIndexIs(domain, '.', 4);
  }

  // ---- The form ----

  datatype ClienteForm = ClienteForm(nome: string, cpf: string, endereco: string, telefone: string, email: string)

  /** The message a field shows, if any: `required` rejects only the empty string; the pattern is checked after it. */
  datatype FormErrors = FormErrors(nome: Option<string>, cpf: Option<string>, endereco: Option<string>,
                                   telefone: Option<string>, email: Option<string>)

  function Required(value: string, message: string): (r: Option<string>)
    ensures r.Some? <==> value == ""
    ensures r.Some? ==> r.value == message
  {
    if value == "" then Some(message) else None
  }

  function CpfError(cpf: string): (r: Option<string>)
    ensures r.None? <==> ValidCpf(cpf)
    ensures cpf == "" ==> r == Some(CPF_REQUIRED)
    ensures cpf != "" && !ValidCpf(cpf) ==> r == Some(CPF_FORMAT)
  {
    if cpf == "" then Some(CPF_REQUIRED) else if !ValidCpf(cpf) then Some(CPF_FORMAT) else None
  }

  function EmailError(email: string): (r: Option<string>)
    ensures r.None? <==> ValidEmail(email)
    ensures email == "" ==> r == Some(EMAIL_REQUIRED)
    ensures email != "" && !ValidEmail(email) ==> r == Some(EMAIL_FORMAT)
  {
    if email == "" then Some(EMAIL_REQUIRED) else if !ValidEmail(email) then Some(EMAIL_FORMAT) else None
  }

  function Validate(f: ClienteForm): (r: FormErrors)
    ensures r.nome.None? <==> f.nome != ""
    ensures r.endereco.None? <==> f.endereco != ""
    ensures r.telefone.None? <==> f.telefone != ""
    ensures r.cpf.None? <==> ValidCpf(f.cpf)
    ensures r.email.None? <==> ValidEmail(f.email)
  {
    FormErrors(Required(f.nome, NOME_REQUIRED), CpfError(f.cpf), Required(f.endereco, ENDERECO_REQUIRED),
               Required(f.telefone, TELEFONE_REQUIRED), EmailError(f.email))
  }

  predicate NoErrors(e: FormErrors)
  {
    e.nome.None? && e.cpf.None? && e.endereco.None? && e.telefone.None? && e.email.None?
  }

  /** The values the form is reset to on opening: the client's five fields when editing, all empty otherwise. */
  function FormDefaults(cliente: Option<Cliente>): (r: ClienteForm)
    ensures cliente.None? ==> r == ClienteForm("", "", "", "", "")
    ensures cliente.Some? ==>
      r.nome == cliente.value.nome && r.cpf == cliente.value.cpf
      && r.endereco == cliente.value.endereco && r.telefone == cliente.value.telefone && r.email == cliente.value.email
  {
    if cliente.None? then ClienteForm("", "", "", "", "")
    else
      var c := cliente.value;
      ClienteForm(c.nome, c.cpf, c.endereco, c.telefone, c.email)
  }

  /** The write `onSubmit` sends and the toast that announces its success. */
  datatype SaveCall = Update(id: int, data: ClienteForm) | Create(data: ClienteForm)

  /** `onSubmit`, reached only when no field has an error: update the edited client by its id, or create. */
  function OnSubmit(cliente: Option<Cliente>, form: ClienteForm): (r: Option<SaveCall>)
    ensures r.Some? <==> NoErrors(Validate(form))
    ensures r.Some? ==> r.value.data == form
    ensures r.Some? ==> (r.value.Update? <==> cliente.Some?)
    ensures r.Some? && cliente.Some? ==> r.value.id == cliente.value.id
  {
    if !NoErrors(Validate(form)) then None
    else if cliente.Some? then Some(Update(cliente.value.id, form))
    else Some(Create(form))
  }

  /** The options of the save mutation: the success message of the branch and `onSave` as `onSuccess`. */
  function SaveOptions(call: SaveCall): (r: UseApi.MutateOptions)
    ensures r.hasOnSuccess && !r.hasOnError
    ensures r.successMessage == Some(if call.Update? then UPDATED_MESSAGE else CREATED_MESSAGE)
  {
    UseApi.MutateOptions(true, false, Some(if call.Update? then UPDATED_MESSAGE else CREATED_MESSAGE))
  }

  /** Opening a new form and submitting it untouched sends nothing: every field starts empty and is required. */
  lemma EmptyCreateRejected()
    ensures OnSubmit(None, FormDefaults(None)).None?
    ensures Validate(FormDefaults(None)) == FormErrors(Some(NOME_REQUIRED), Some(CPF_REQUIRED), Some(ENDERECO_REQUIRED),
                                                       Some(TELEFONE_REQUIRED), Some(EMAIL_REQUIRED))
  {
  }

  /**
   * Opening the form on a client whose stored fields pass the rules and submitting it untouched updates
   * that client with its own fields.
   */
  lemma UntouchedEditUpdatesSameClient(c: Cliente)
    requires c.nome != "" && c.endereco != "" && c.telefone != "" && ValidCpf(c.cpf) && ValidEmail(c.email)
    ensures OnSubmit(Some(c), FormDefaults(Some(c))) == Some(Update(c.id, ClienteForm(c.nome, c.cpf, c.endereco, c.telefone, c.email)))
  {
  }
}
