/**
 * The pure helpers of the API: Brazilian document and contact validation, display
 * formatting, truncation, pagination arithmetic and the removal of empty properties.
 * `\d` in the source's regular expressions is the ASCII digit class.
 */
module Helpers {
  import opened Outcome
  import Js

  // ---------------------------------------------------------------- digits

  predicate Digito(c: char) { '0' <= c <= '9' }

  /** `parseInt(c)` of a digit. */
  function Valor(c: char): int { c as int - '0' as int }

  predicate SoDigitos(s: string) { forall i :: 0 <= i < |s| ==> Digito(s[i]) }

  /** `str.replace(/[^\d]/g, '')`: the digits of `s`, in order. */
  function ApenasNumeros(s: string): (r: string)
    ensures SoDigitos(r) && |r| <= |s|
  {
    if s == [] then []
    else (if Digito(s[0]) then [s[0]] else []) + ApenasNumeros(s[1..])
  }

  /** Keeping the digits of a string made only of digits changes nothing. */
  lemma {:induction false} ApenasNumerosDeDigitos(s: string)
    requires SoDigitos(s)
    ensures ApenasNumeros(s) == s
  {
    if s != [] {
      ApenasNumerosDeDigitos(s[1..]);
    }
  }

  lemma {:induction false} ApenasNumerosIdempotente(s: string)
    ensures ApenasNumeros(ApenasNumeros(s)) == ApenasNumeros(s)
  {
    ApenasNumerosDeDigitos(ApenasNumeros(s));
  }

  lemma {:induction false} ApenasNumerosConcat(a: string, b: string)
    ensures ApenasNumeros(a + b) == ApenasNumeros(a) + ApenasNumeros(b)
  {
    if a != [] {
      var h: string := if Digito(a[0]) then [a[0]] else [];
      assert (a + b)[0] == a[0] && (a + b)[1..] == a[1..] + b;
      ApenasNumerosConcat(a[1..], b);
      calc {
        ApenasNumeros(a + b);
        h + ApenasNumeros(a[1..] + b);
        h + (ApenasNumeros(a[1..]) + ApenasNumeros(b));
        (h + ApenasNumeros(a[1..])) + ApenasNumeros(b);
        ApenasNumeros(a) + ApenasNumeros(b);
      }
    } else {
      assert a + b == b;
    }
  }

  /** `/^(\d)\1+$/`: at least two characters, all the same digit. */
  predicate Repetido(s: string)
  {
    |s| >= 2 && Digito(s[0]) && forall i :: 0 <= i < |s| ==> s[i] == s[0]
  }

  // ---------------------------------------------------------------- CPF

  /** `sum of parseInt(d[i]) * (topo - i)` over the first `n` digits. */
  function SomaCpf(d: string, n: nat, topo: int): int
    requires n <= |d|
  {
    if n == 0 then 0 else SomaCpf(d, n - 1, topo) + Valor(d[n - 1]) * (topo - (n - 1))
  }

  /** The check digit of a weighted sum: `(soma * 10) % 11`, with 10 (and 11) read as 0. */
  function DigitoCpf(soma: int): (r: int)
    ensures 0 <= r <= 9
    ensures soma >= 0 ==> (r == 0 <==> (soma * 10) % 11 in {0, 10})
  {
    var resto := (soma * 10) % 11;
    if resto == 10 || resto == 11 then 0 else resto
  }

  /**
   * A CPF: eleven digits once punctuation is removed, not all the same, whose tenth
   * digit checks the first nine under weights 10..2 and whose eleventh checks the first
   * ten under weights 11..2.
   */
  predicate CpfValido(cpf: string)
  {
    var d := ApenasNumeros(cpf);
    |d| == 11 && !Repetido(d)
    && DigitoCpf(SomaCpf(d, 9, 10)) == Valor(d[9])
    && DigitoCpf(SomaCpf(d, 10, 11)) == Valor(d[10])
  }

  /** validarCPF, with its two weighted-sum loops. */
  method ValidarCPF(entrada: string) returns (ok: bool)
    ensures ok == CpfValido(entrada)
  {
    var cpf := ApenasNumeros(entrada);
    if |cpf| != 11 { return false; }
    if Repetido(cpf) { return false; }

    var soma := 0;
    var i := 0;
    while i < 9
      invariant i <= 9 && soma == SomaCpf(cpf, i, 10)
    {
      soma := soma + Valor(cpf[i]) * (10 - i);
      i := i + 1;
    }
    var resto := (soma * 10) % 11;
    if resto == 10 || resto == 11 { resto := 0; }
    if resto != Valor(cpf[9]) { return false; }

    soma := 0;
    i := 0;
    while i < 10
      invariant i <= 10 && soma == SomaCpf(cpf, i, 11)
    {
      soma := soma + Valor(cpf[i]) * (11 - i);
      i := i + 1;
    }
    resto := (soma * 10) % 11;
    if resto == 10 || resto == 11 { resto := 0; }
    if resto != Valor(cpf[10]) { return false; }
    return true;
  }

  // ---------------------------------------------------------------- CNPJ

  /**
   * The weight of digit `j` when `tamanho` digits are summed: it starts at `tamanho - 7`
   * and counts down, wrapping from 2 back to 9.
   */
  function PesoCnpj(tamanho: int, j: int): (w: int)
    requires 9 <= tamanho <= 16 && 0 <= j < tamanho
    ensures 2 <= w <= 9
  {
    var p := tamanho - 7 - j;
    if p >= 2 then p else p + 8
  }

  /** The weights spelled out: 5..2,9..2 for the first check digit and 6..2,9..2 for the second. */
  lemma {:induction false} PesosCnpj()
    ensures forall j :: 0 <= j < 12 ==> PesoCnpj(12, j) == [5, 4, 3, 2, 9, 8, 7, 6, 5, 4, 3, 2][j]
    ensures forall j :: 0 <= j < 13 ==> PesoCnpj(13, j) == [6, 5, 4, 3, 2, 9, 8, 7, 6, 5, 4, 3, 2][j]
  {
  }

  function SomaCnpj(d: string, n: nat, tamanho: int): int
    requires 9 <= tamanho <= 16 && n <= tamanho && n <= |d|
  {
    if n == 0 then 0 else SomaCnpj(d, n - 1, tamanho) + Valor(d[n - 1]) * PesoCnpj(tamanho, n - 1)
  }

  /** `soma % 11 < 2 ? 0 : 11 - soma % 11`. */
  function DigitoCnpj(soma: int): (r: int)
    ensures 0 <= r <= 9
    ensures r == 0 <==> soma % 11 < 2
    ensures r != 0 ==> (r + soma) % 11 == 0
  {
    if soma % 11 < 2 then 0 else 11 - soma % 11
  }

  /**
   * A CNPJ: fourteen digits once punctuation is removed, not all the same, whose
   * thirteenth digit checks the first twelve and whose fourteenth checks the first thirteen.
   */
  predicate CnpjValido(cnpj: string)
  {
    var d := ApenasNumeros(cnpj);
    |d| == 14 && !Repetido(d)
    && DigitoCnpj(SomaCnpj(d, 12, 12)) == Valor(d[12])
    && DigitoCnpj(SomaCnpj(d, 13, 13)) == Valor(d[13])
  }

  /**
   * One pass of validarCNPJ: `for (i = tamanho; i >= 1; i--) { soma += d[tamanho - i] * pos--;
   * if (pos < 2) pos = 9; }` starting from `pos = tamanho - 7`.
   */
  method SomarCnpj(d: string, tamanho: int) returns (soma: int)
    requires 9 <= tamanho <= 16 && tamanho <= |d|
    ensures soma == SomaCnpj(d, tamanho, tamanho)
  {
    soma := 0;
    var pos := tamanho - 7;
    var i := tamanho;
    while i >= 1
      invariant 0 <= i <= tamanho
      invariant soma == SomaCnpj(d, tamanho - i, tamanho)
      invariant i >= 1 ==> pos == PesoCnpj(tamanho, tamanho - i)
    {
      soma := soma + Valor(d[tamanho - i]) * pos;
      pos := pos - 1;
      if pos < 2 { pos := 9; }
      i := i - 1;
    }
  }

  /** validarCNPJ. */
  method ValidarCNPJ(entrada: string) returns (ok: bool)
    ensures ok == CnpjValido(entrada)
  {
    var cnpj := ApenasNumeros(entrada);
    if |cnpj| != 14 { return false; }
    if Repetido(cnpj) { return false; }

    var tamanho := |cnpj| - 2;
    var soma := SomarCnpj(cnpj, tamanho);
    var resultado := if soma % 11 < 2 then 0 else 11 - soma % 11;
    if resultado != Valor(cnpj[12]) { return false; }

    tamanho := tamanho + 1;
    soma := SomarCnpj(cnpj, tamanho);
    resultado := if soma % 11 < 2 then 0 else 11 - soma % 11;
    if resultado != Valor(cnpj[13]) { return false; }
    return true;
  }

  /** validarCpfCnpj: the digit count picks the validator; other counts are rejected. */
  method ValidarCpfCnpj(documento: string) returns (ok: bool)
    ensures ok <==> CpfValido(documento) || CnpjValido(documento)
  {
    var numeros := ApenasNumeros(documento);
    if |numeros| == 11 {
      ok := ValidarCPF(documento);
    } else if |numeros| == 14 {
      ok := ValidarCNPJ(documento);
    } else {
      ok := false;
    }
  }

  // ---------------------------------------------------------------- contact data

  /** validarTelefone: ten or eleven digits (area code and number). */
  predicate TelefoneValido(telefone: string)
  {
    10 <= |ApenasNumeros(telefone)| <= 11
  }

  /** validarCEP: eight digits. */
  predicate CepValido(cep: string)
  {
    |ApenasNumeros(cep)| == 8
  }

  /** Every validator sees only the digits of its input. */
  lemma {:induction false} ValidadoresSoDigitos(s: string)
    ensures CpfValido(ApenasNumeros(s)) == CpfValido(s)
    ensures CnpjValido(ApenasNumeros(s)) == CnpjValido(s)
    ensures TelefoneValido(ApenasNumeros(s)) == TelefoneValido(s)
    ensures CepValido(ApenasNumeros(s)) == CepValido(s)
  {
    ApenasNumerosIdempotente(s);
  }

  // ---------------------------------------------------------------- formatting

  /**
   * formatarCPF: the digits, with `(\d{3})(\d{3})(\d{3})(\d{2})` replaced once by
   * `$1.$2.$3-$4`; the pattern matches at the start exactly when there are eleven digits or more.
   */
  function FormatarCpf(cpf: string): string
  {
    var d := ApenasNumeros(cpf);
    if |d| >= 11 then d[..3] + "." + d[3..6] + "." + d[6..9] + "-" + d[9..11] + d[11..] else d
  }

  /** formatarCNPJ: `(\d{2})(\d{3})(\d{3})(\d{4})(\d{2})` replaced once by `$1.$2.$3/$4-$5`. */
  function FormatarCnpj(cnpj: string): string
  {
    var d := ApenasNumeros(cnpj);
    if |d| >= 14 then d[..2] + "." + d[2..5] + "." + d[5..8] + "/" + d[8..12] + "-" + d[12..14] + d[14..] else d
  }

  /** formatarCpfCnpj: any other digit count returns the input as given, punctuation included. */
  function FormatarCpfCnpj(documento: string): string
  {
    var n := |ApenasNumeros(documento)|;
    if n == 11 then FormatarCpf(documento)
    else if n == 14 then FormatarCnpj(documento)
    else documento
  }

  /** formatarTelefone: `($1) $2-$3` over 2+5+4 digits for eleven digits, over 2+4+4 otherwise. */
  function FormatarTelefone(telefone: string): string
  {
    var d := ApenasNumeros(telefone);
    if |d| == 11 then "(" + d[..2] + ") " + d[2..7] + "-" + d[7..11]
    else if |d| >= 10 then "(" + d[..2] + ") " + d[2..6] + "-" + d[6..10] + d[10..]
    else d
  }

  /** formatarCEP: `(\d{5})(\d{3})` replaced once by `$1-$2`. */
  function FormatarCep(cep: string): string
  {
    var d := ApenasNumeros(cep);
    if |d| >= 8 then d[..5] + "-" + d[5..8] + d[8..] else d
  }

  /** Punctuation adds no digit. */
  lemma {:induction false} SemDigitos(p: string)
    requires forall i :: 0 <= i < |p| ==> !Digito(p[i])
    ensures ApenasNumeros(p) == []
  {
    if p != [] {
      SemDigitos(p[1..]);
    }
  }

  lemma {:induction false} Pontuar(x: string, p: string)
    requires forall i :: 0 <= i < |p| ==> !Digito(p[i])
    ensures ApenasNumeros(x + p) == ApenasNumeros(x)
  {
    ApenasNumerosConcat(x, p);
    SemDigitos(p);
  }

  /** Appending the next slice of a digit string extends the digits read so far by that slice. */
  lemma {:induction false} Anexar(x: string, d: string, k: nat, j: nat)
    requires SoDigitos(d) && k <= j <= |d| && ApenasNumeros(x) == d[..k]
    ensures ApenasNumeros(x + d[k..j]) == d[..j]
  {
    ApenasNumerosConcat(x, d[k..j]);
    assert SoDigitos(d[k..j]);
    ApenasNumerosDeDigitos(d[k..j]);
    assert d[..k] + d[k..j] == d[..j];
  }

  lemma {:induction false} Inicio(d: string, j: nat)
    requires SoDigitos(d) && j <= |d|
    ensures ApenasNumeros(d[..j]) == d[..j]
  {
    assert SoDigitos(d[..j]);
    ApenasNumerosDeDigitos(d[..j]);
  }

  /** formatarCPF only adds punctuation: the digits of its output are those of its input. */
  lemma {:induction false} FormatarCpfDigitos(cpf: string)
    ensures ApenasNumeros(FormatarCpf(cpf)) == ApenasNumeros(cpf)
  {
    var d := ApenasNumeros(cpf);
    ApenasNumerosIdempotente(cpf);
    if |d| >= 11 {
      Inicio(d, 3);
      var t1 := d[..3] + "."; Pontuar(d[..3], ".");
      var t2 := t1 + d[3..6]; Anexar(t1, d, 3, 6);
      var t3 := t2 + "."; Pontuar(t2, ".");
      var t4 := t3 + d[6..9]; Anexar(t3, d, 6, 9);
      var t5 := t4 + "-"; Pontuar(t4, "-");
      var t6 := t5 + d[9..11]; Anexar(t5, d, 9, 11);
      var t7 := t6 + d[11..]; assert d[11..] == d[11..|d|]; Anexar(t6, d, 11, |d|);
      assert d[..|d|] == d;
      assert FormatarCpf(cpf) == t7;
    }
  }
  /** Formatting an already formatted value changes nothing. */
  lemma {:induction false} FormatarCpfIdempotente(cpf: string)
    ensures FormatarCpf(FormatarCpf(cpf)) == FormatarCpf(cpf)
  {
    FormatarCpfDigitos(cpf);
  }
  /** A complete value formats to its fixed display width. */
  lemma {:induction false} FormatarCpfLargura(cpf: string)
    ensures |ApenasNumeros(cpf)| == 11 ==> |FormatarCpf(cpf)| == 14
  {
  }



  /** formatarCNPJ only adds punctuation. */
  lemma {:induction false} FormatarCnpjDigitos(cnpj: string)
    ensures ApenasNumeros(FormatarCnpj(cnpj)) == ApenasNumeros(cnpj)
  {
    var d := ApenasNumeros(cnpj);
    ApenasNumerosIdempotente(cnpj);
    if |d| >= 14 {
      Inicio(d, 2);
      var t1 := d[..2] + "."; Pontuar(d[..2], ".");
      var t2 := t1 + d[2..5]; Anexar(t1, d, 2, 5);
      var t3 := t2 + "."; Pontuar(t2, ".");
      var t4 := t3 + d[5..8]; Anexar(t3, d, 5, 8);
      var t5 := t4 + "/"; Pontuar(t4, "/");
      var t6 := t5 + d[8..12]; Anexar(t5, d, 8, 12);
      var t7 := t6 + "-"; Pontuar(t6, "-");
      var t8 := t7 + d[12..14]; Anexar(t7, d, 12, 14);
      var t9 := t8 + d[14..]; assert d[14..] == d[14..|d|]; Anexar(t8, d, 14, |d|);
      assert d[..|d|] == d;
      assert FormatarCnpj(cnpj) == t9;
    }
  }
  /** Formatting an already formatted value changes nothing. */
  lemma {:induction false} FormatarCnpjIdempotente(cnpj: string)
    ensures FormatarCnpj(FormatarCnpj(cnpj)) == FormatarCnpj(cnpj)
  {
    FormatarCnpjDigitos(cnpj);
  }
  /** A complete value formats to its fixed display width. */
  lemma {:induction false} FormatarCnpjLargura(cnpj: string)
    ensures |ApenasNumeros(cnpj)| == 14 ==> |FormatarCnpj(cnpj)| == 18
  {
  }



  /** formatarCpfCnpj keeps the digits of any input, and a formatted document validates as the original does. */
  lemma {:induction false} FormatarCpfCnpjDigitos(documento: string)
    ensures ApenasNumeros(FormatarCpfCnpj(documento)) == ApenasNumeros(documento)
    ensures CpfValido(FormatarCpfCnpj(documento)) == CpfValido(documento)
    ensures CnpjValido(FormatarCpfCnpj(documento)) == CnpjValido(documento)
  {
    FormatarCpfDigitos(documento);
    FormatarCnpjDigitos(documento);
  }

  /** formatarCEP only adds punctuation. */
  lemma {:induction false} FormatarCepDigitos(cep: string)
    ensures ApenasNumeros(FormatarCep(cep)) == ApenasNumeros(cep)
  {
    var d := ApenasNumeros(cep);
    ApenasNumerosIdempotente(cep);
    if |d| >= 8 {
      Inicio(d, 5);
      var t1 := d[..5] + "-"; Pontuar(d[..5], "-");
      var t2 := t1 + d[5..8]; Anexar(t1, d, 5, 8);
      var t3 := t2 + d[8..]; assert d[8..] == d[8..|d|]; Anexar(t2, d, 8, |d|);
      assert d[..|d|] == d;
      assert FormatarCep(cep) == t3;
    }
  }
  /** Formatting an already formatted value changes nothing. */
  lemma {:induction false} FormatarCepIdempotente(cep: string)
    ensures FormatarCep(FormatarCep(cep)) == FormatarCep(cep)
  {
    FormatarCepDigitos(cep);
  }
  /** A complete value formats to its fixed display width. */
  lemma {:induction false} FormatarCepLargura(cep: string)
    ensures |ApenasNumeros(cep)| == 8 ==> |FormatarCep(cep)| == 9
  {
  }



  /** formatarTelefone only adds punctuation. */
  lemma {:induction false} FormatarTelefoneDigitos(telefone: string)
    ensures ApenasNumeros(FormatarTelefone(telefone)) == ApenasNumeros(telefone)
  {
    var d := ApenasNumeros(telefone);
    ApenasNumerosIdempotente(telefone);
    if |d| == 11 {
      SemDigitos("(");
      Anexar("(", d, 0, 2); assert d[0..2] == d[..2];
      var t1 := "(" + d[..2] + ") "; Pontuar("(" + d[..2], ") ");
      var t2 := t1 + d[2..7]; Anexar(t1, d, 2, 7);
      var t3 := t2 + "-"; Pontuar(t2, "-");
      var t4 := t3 + d[7..11]; Anexar(t3, d, 7, 11);
      assert d[..11] == d;
      assert FormatarTelefone(telefone) == t4;
    } else if |d| >= 10 {
      SemDigitos("(");
      Anexar("(", d, 0, 2); assert d[0..2] == d[..2];
      var t1 := "(" + d[..2] + ") "; Pontuar("(" + d[..2], ") ");
      var t2 := t1 + d[2..6]; Anexar(t1, d, 2, 6);
      var t3 := t2 + "-"; Pontuar(t2, "-");
      var t4 := t3 + d[6..10]; Anexar(t3, d, 6, 10);
      var t5 := t4 + d[10..]; assert d[10..] == d[10..|d|]; Anexar(t4, d, 10, |d|);
      assert d[..|d|] == d;
      assert FormatarTelefone(telefone) == t5;
    }
  }
  /** Formatting a formatted number changes nothing, and a formatted number validates as the original does. */
  lemma {:induction false} FormatarTelefoneIdempotente(telefone: string)
    ensures FormatarTelefone(FormatarTelefone(telefone)) == FormatarTelefone(telefone)
    ensures TelefoneValido(FormatarTelefone(telefone)) == TelefoneValido(telefone)
  {
    FormatarTelefoneDigitos(telefone);
  }
  /** Eleven digits format to fifteen characters, ten digits to fourteen. */
  lemma {:induction false} FormatarTelefoneLargura(telefone: string)
    ensures |ApenasNumeros(telefone)| == 11 ==> |FormatarTelefone(telefone)| == 15
    ensures |ApenasNumeros(telefone)| == 10 ==> |FormatarTelefone(telefone)| == 14
  {
  }



  // ---------------------------------------------------------------- truncation

  /**
   * truncar: strings within the bound are kept; longer ones keep their first
   * `tamanho - 3` characters (none when that is negative) followed by "...".
   */
  function Truncar(s: string, tamanho: int): (r: string)
    ensures |s| <= tamanho ==> r == s
    ensures |s| > tamanho && tamanho >= 3 ==>
              |r| == tamanho && r[..tamanho - 3] == s[..tamanho - 3] && r[tamanho - 3..] == "..."
    ensures |s| > tamanho && tamanho < 3 ==> r == "..."
  {
    if |s| <= tamanho then s
    else s[..Max(0, tamanho - 3)] + "..."
  }

  /** Truncating twice with the same bound is truncating once. */
  lemma {:induction false} TruncarIdempotente(s: string, tamanho: int)
    ensures Truncar(Truncar(s, tamanho), tamanho) == Truncar(s, tamanho)
  {
  }

  // ---------------------------------------------------------------- pagination

  /** calcularOffset: the rows held by the pages before `page`. */
  function CalcularOffset(page: int, limit: int): (r: int)
    ensures page >= 1 && limit >= 0 ==> r >= 0
    ensures page == 1 ==> r == 0
  {
    (page - 1) * limit
  }

  /** With a positive limit, row `k` is on page `k / limit + 1` and on no other page. */
  lemma {:induction false} PaginaDaLinha(page: int, limit: int, k: nat)
    requires limit > 0
    ensures CalcularOffset(page, limit) <= k < CalcularOffset(page, limit) + limit <==> page == k / limit + 1
  {
    var q, m := k / limit, k % limit;
    assert k == q * limit + m && 0 <= m < limit;
    if page <= q {
      assert (page - 1) * limit + limit == page * limit <= q * limit;
    } else if page >= q + 2 {
      assert (page - 1) * limit >= (q + 1) * limit == q * limit + limit;
    } else {
      assert (page - 1) * limit == q * limit;
    }
  }

  /**
   * `Math.ceil(a / b)` for a non-zero divisor: with `b > 0` the fewest multiples of `b`
   * reaching `a`, with `b < 0` the mirror image.
   */
  function Teto(a: int, b: int): (r: int)
    requires b != 0
    ensures b > 0 ==> (r - 1) * b < a <= r * b
    ensures b < 0 ==> r * b <= a < (r - 1) * b
    ensures b > 0 && a >= 0 ==> r >= 0
  {
    if b > 0 then TetoPositivo(a, b); -((-a) / b)
    else TetoNegativo(a, b); -(a / (-b))
  }

  lemma {:induction false} TetoPositivo(a: int, b: int)
    requires b > 0
    ensures var r := -((-a) / b); (r - 1) * b < a <= r * b && (a >= 0 ==> r >= 0)
  {
    var q, m := (-a) / b, (-a) % b;
    assert -a == q * b + m && 0 <= m < b;
    assert -q * b == a + m;
    assert (-q - 1) * b == a + m - b;
  }

  lemma {:induction false} TetoNegativo(a: int, b: int)
    requires b < 0
    ensures var r := -(a / (-b)); r * b <= a < (r - 1) * b
  {
    var c := -b;
    var q, m := a / c, a % c;
    assert a == q * c + m && 0 <= m < c;
    assert -q * b == a - m;
    assert (-q - 1) * b == a - m + c;
  }

  /** A JavaScript division result as `Math.ceil` leaves it. */
  datatype Paginas = Finitas(n: int) | MaisInfinito | MenosInfinito | NaoNumero

  /**
   * calcularTotalPaginas: `Math.ceil(totalItens / limit)`. A zero limit divides to
   * ±Infinity, or NaN when there are no rows.
   */
  function CalcularTotalPaginas(totalItens: int, limit: int): (r: Paginas)
    ensures r.Finitas? <==> limit != 0
    ensures limit > 0 && totalItens >= 0 ==> r.Finitas? && r.n >= 0
    ensures limit > 0 && r.Finitas? ==> (r.n - 1) * limit < totalItens <= r.n * limit
    ensures limit == 0 ==> (r == NaoNumero <==> totalItens == 0)
  {
    if limit != 0 then Finitas(Teto(totalItens, limit))
    else if totalItens > 0 then MaisInfinito
    else if totalItens < 0 then MenosInfinito
    else NaoNumero
  }

  /** `page < totalPages`, where every comparison with NaN is false. */
  predicate Menor(page: int, p: Paginas)
  {
    match p
    case Finitas(n) => page < n
    case MaisInfinito => true
    case MenosInfinito => false
    case NaoNumero => false
  }

  datatype Paginacao = Paginacao(page: int, limit: int, total: int, totalPages: Paginas, hasNext: bool, hasPrev: bool)

  /** gerarPaginacao. */
  function GerarPaginacao(page: int, limit: int, total: int): (r: Paginacao)
    ensures r.page == page && r.limit == limit && r.total == total
    ensures r.totalPages == CalcularTotalPaginas(total, limit)
    ensures r.hasPrev <==> page > 1
    ensures limit > 0 ==> (r.hasPrev <==> CalcularOffset(page, limit) > 0)
  {
    var totalPages := CalcularTotalPaginas(total, limit);
    Paginacao(page, limit, total, totalPages, Menor(page, totalPages), page > 1)
  }

  /** With a positive limit there is a next page exactly when rows remain after this one. */
  lemma {:induction false} HaProxima(page: int, limit: int, total: int)
    requires limit > 0
    ensures GerarPaginacao(page, limit, total).hasNext <==> CalcularOffset(page + 1, limit) < total
  {
    var n := Teto(total, limit);
    if page < n {
      assert page * limit <= (n - 1) * limit;
    } else {
      assert page * limit >= n * limit;
    }
  }

  // ---------------------------------------------------------------- objects

  predicate Definido(v: Js.Valor) { v != Js.Indefinido && v != Js.Nulo }

  /** limparObjeto: the entries whose value is neither undefined nor null, in order. */
  function LimparObjeto(o: Js.Objeto): (r: Js.Objeto)
    ensures |r| <= |o|
    ensures forall i :: 0 <= i < |r| ==> Definido(r[i].1)
  {
    if o == [] then []
    else (if Definido(o[0].1) then [o[0]] else []) + LimparObjeto(o[1..])
  }

  /** Reading a cleaned object gives the defined values and `undefined` for everything else. */
  lemma {:induction false} LimparObjetoObter(o: Js.Objeto, chave: string)
    requires Js.ChavesUnicas(o)
    ensures Js.Obter(LimparObjeto(o), chave)
         == (if Definido(Js.Obter(o, chave)) then Js.Obter(o, chave) else Js.Indefinido)
  {
    if o != [] {
      var resto := o[1..];
      assert Js.ChavesUnicas(resto);
      LimparObjetoObter(resto, chave);
      var l := LimparObjeto(o);
      if o[0].0 == chave {
        assert forall k :: 0 <= k < |resto| ==> resto[k].0 != chave;
        assert Js.Obter(resto, chave) == Js.Indefinido;
      }
      if Definido(o[0].1) {
        assert l == [o[0]] + LimparObjeto(resto);
        assert l[0] == o[0] && l[1..] == LimparObjeto(resto);
      } else {
        assert l == LimparObjeto(resto);
      }
    }
  }

  /** Cleaning is idempotent. */
  lemma {:induction false} LimparObjetoIdempotente(o: Js.Objeto)
    ensures LimparObjeto(LimparObjeto(o)) == LimparObjeto(o)
  {
    if o != [] {
      LimparObjetoIdempotente(o[1..]);
      var l := LimparObjeto(o);
      if Definido(o[0].1) {
        assert l == [o[0]] + LimparObjeto(o[1..]);
        assert l[0] == o[0] && l[1..] == LimparObjeto(o[1..]);
      } else {
        assert l == LimparObjeto(o[1..]);
      }
    }
  }
}
