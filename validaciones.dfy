/** The request-body constraints on services and users, as predicates over
    strings. A field that may be absent is an Option: @NotBlank rejects an
    absent value, while @Size and @Pattern accept it. */
module Validaciones {
  import opened Comun

  // ---------------------------------------------------------------------------
  // @NotBlank: some character survives String.trim()

  /** String.trim() strips the characters up to U+0020 from both ends. */
  predicate Recortable(c: char) {
    c <= ' '
  }

  function RecortarInicio(s: string): (r: string)
    ensures |r| <= |s| && r == s[|s| - |r|..]
    ensures r == [] || !Recortable(r[0])
    ensures forall i | 0 <= i < |s| - |r| :: Recortable(s[i])
  {
    if s != [] && Recortable(s[0]) then RecortarInicio(s[1..]) else s
  }

  function RecortarFin(s: string): (r: string)
    ensures |r| <= |s| && r == s[..|r|]
    ensures r == [] || !Recortable(r[|r| - 1])
    ensures forall i | |r| <= i < |s| :: Recortable(s[i])
  {
    if s != [] && Recortable(s[|s| - 1]) then RecortarFin(s[..|s| - 1]) else s
  }

  /** String.trim(). */
  function Recortar(s: string): string {
    RecortarFin(RecortarInicio(s))
  }

  /** @NotBlank: present, with at least one character above U+0020. */
  function NoEnBlanco(s: Option<string>): (b: bool)
    ensures s.None? ==> !b
    ensures s.Some? ==> (!b <==> forall i | 0 <= i < |s.value| :: Recortable(s.value[i]))
  {
    s.Some? && !TodoRecortable(s.value)
  }

  function TodoRecortable(s: string): (b: bool)
    ensures b <==> forall i | 0 <= i < |s| :: Recortable(s[i])
  {
    if s == [] then true
    else
      assert forall i | 1 <= i < |s| :: s[i] == s[1..][i - 1];
      Recortable(s[0]) && TodoRecortable(s[1..])
  }

  /** @NotBlank agrees with Hibernate's reading of it: trim() leaves something. */
  lemma NoEnBlancoSiiRecorteNoVacio(s: string)
    ensures NoEnBlanco(Some(s)) <==> |Recortar(s)| > 0
  {
    var a := RecortarInicio(s);
    var r := RecortarFin(a);
    if |r| > 0 {
      var k := |s| - |a|;
      assert s[k] == a[0] == r[0];
      assert !Recortable(s[k]);
    } else {
      assert |a| == 0;
    }
  }

  // ---------------------------------------------------------------------------
  // @Size and the length rules

  predicate LongitudEntre(s: Option<string>, min: int, max: int) {
    s.None? || min <= |s.value| <= max
  }

  /** @NotBlank with @Size(min, max): present, something left after trimming,
      and a length in [min, max]. */
  function Obligatorio(s: Option<string>, min: int, max: int): (b: bool)
    ensures b <==> s.Some? && |Recortar(s.value)| > 0 && min <= |s.value| <= max
  {
    if s.None? then false
    else
      NoEnBlancoSiiRecorteNoVacio(s.value);
      NoEnBlanco(s) && LongitudEntre(s, min, max)
  }

  /** The service name: not blank, at most 255 characters. */
  function NombreServicioValido(nombre: Option<string>): (b: bool)
    ensures b <==> nombre.Some? && |Recortar(nombre.value)| > 0 && |nombre.value| <= 255
  {
    Obligatorio(nombre, 0, 255)
  }

  /** The user name: not blank, 3 to 255 characters. */
  function NombreUsuarioValido(nombre: Option<string>): (b: bool)
    ensures b <==> nombre.Some? && |Recortar(nombre.value)| > 0 && 3 <= |nombre.value| <= 255
  {
    Obligatorio(nombre, 3, 255)
  }

  /** The email: not blank, at most 255 characters (the address syntax check is
      not modelled). */
  function EmailValido(email: Option<string>): (b: bool)
    ensures b <==> email.Some? && |Recortar(email.value)| > 0 && |email.value| <= 255
  {
    Obligatorio(email, 0, 255)
  }

  // ---------------------------------------------------------------------------
  // @Pattern("^[0-9]{7,20}$") on the phone number

  predicate Digito(c: char) {
    '0' <= c <= '9'
  }

  function SoloDigitos(s: string): (b: bool)
    ensures b <==> forall i | 0 <= i < |s| :: Digito(s[i])
  {
    if s == [] then true
    else
      assert forall i | 1 <= i < |s| :: s[i] == s[1..][i - 1];
      Digito(s[0]) && SoloDigitos(s[1..])
  }

  /** The phone number: absent, or 7 to 20 characters that are all digits. */
  function TelefonoValido(telefono: Option<string>): (b: bool)
    ensures telefono.None? ==> b
    ensures telefono.Some? ==>
              (b <==> 7 <= |telefono.value| <= 20 && forall i | 0 <= i < |telefono.value| :: Digito(telefono.value[i]))
  {
    telefono.None? || (7 <= |telefono.value| <= 20 && SoloDigitos(telefono.value))
  }

  lemma EjemplosTelefonoAceptados()
    ensures TelefonoValido(None)
    ensures TelefonoValido(Some("3001234"))
  {
  }

  lemma EjemplosTelefonoRechazados()
    ensures !TelefonoValido(Some("123456"))
    ensures !TelefonoValido(Some("300-123-4567"))
    ensures !TelefonoValido(Some(""))
  {
    assert !Digito("300-123-4567"[3]);
  }

  // ---------------------------------------------------------------------------
  // @Pattern("^\d+\s*(min|minutos|hora|horas)$") on the service duration

  /** \s in a Java pattern: space, tab, newline, vertical tab, form feed, return. */
  predicate Espacio(c: char) {
    c == ' ' || c == '\t' || c == '\n' || c == '\U{000B}' || c == '\U{000C}' || c == '\r'
  }

  predicate Unidad(u: string) {
    u == "min" || u == "minutos" || u == "hora" || u == "horas"
  }

  /** The length of the longest prefix of s made of characters satisfying p. */
  function Prefijo(s: string, p: char -> bool): (n: nat)
    ensures n <= |s|
    ensures forall i | 0 <= i < n :: p(s[i])
    ensures n < |s| ==> !p(s[n])
  {
    if s == [] || !p(s[0]) then 0
    else
      var n := 1 + Prefijo(s[1..], p);
      assert forall i | 1 <= i < n :: s[i] == s[1..][i - 1];
      n
  }

  /** A run of p-characters followed by a character that is not one (or by the
      end) is the longest such prefix. */
  lemma PrefijoUnico(s: string, p: char -> bool, n: nat)
    requires n <= |s|
    requires forall i | 0 <= i < n :: p(s[i])
    requires n < |s| ==> !p(s[n])
    ensures Prefijo(s, p) == n
  {
  }

  /** The duration recogniser: a run of digits, a run of whitespace, then a unit. */
  function DuracionValida(s: string): bool {
    var i := Prefijo(s, Digito);
    var j := i + Prefijo(s[i..], Espacio);
    i > 0 && Unidad(s[j..])
  }

  /** s splits at i and j into a non-empty digit part, a whitespace part and a unit. */
  ghost predicate Particion(s: string, i: int, j: int) {
    0 < i <= j <= |s| &&
    (forall k | 0 <= k < i :: Digito(s[k])) &&
    (forall k | i <= k < j :: Espacio(s[k])) &&
    Unidad(s[j..])
  }

  /** The pattern read literally: some split of s matches it. */
  ghost predicate CoincidePatronDuracion(s: string) {
    exists i, j :: Particion(s, i, j)
  }

  /** The recogniser splits s where the pattern would. */
  lemma ParticionDelReconocedor(s: string)
    requires DuracionValida(s)
    ensures Particion(s, Prefijo(s, Digito), Prefijo(s, Digito) + Prefijo(s[Prefijo(s, Digito)..], Espacio))
  {
    var i := Prefijo(s, Digito);
    var j := i + Prefijo(s[i..], Espacio);
    assert forall k | i <= k < j :: s[k] == s[i..][k - i];
  }

  /** A split of s matching the pattern is the one the recogniser finds. */
  lemma ParticionUnica(s: string, i: int, j: int)
    requires Particion(s, i, j)
    ensures Prefijo(s, Digito) == i && i + Prefijo(s[i..], Espacio) == j
  {
    // Units start with a letter, so neither run can extend into them.
    assert s[j] == s[j..][0];
    if i < j {
      assert Espacio(s[i]);
    }
    PrefijoUnico(s, Digito, i);
    var t := s[i..];
    assert forall k | 0 <= k < j - i :: t[k] == s[i + k];
    assert t[j - i] == s[j];
    PrefijoUnico(t, Espacio, j - i);
  }

  /** The recogniser accepts exactly the strings the pattern matches. */
  lemma DuracionValidaSiiPatron(s: string)
    ensures DuracionValida(s) <==> CoincidePatronDuracion(s)
  {
    if DuracionValida(s) {
      var i := Prefijo(s, Digito);
      var j := i + Prefijo(s[i..], Espacio);
      ParticionDelReconocedor(s);
      assert Particion(s, i, j);
    }
    if CoincidePatronDuracion(s) {
      var i, j :| Particion(s, i, j);
      AceptaConParticion(s, i, j);
    }
  }

  /** The recogniser accepts s when the pattern's split at i and j fits it. */
  lemma AceptaConParticion(s: string, i: int, j: int)
    requires Particion(s, i, j)
    ensures DuracionValida(s)
  {
    ParticionUnica(s, i, j);
  }

  lemma EjemploDuracionMin()
    ensures DuracionValida("30 min")
  {
    assert "30 min"[3..] == "min";
    AceptaConParticion("30 min", 2, 3);
  }

  lemma EjemploDuracionHora()
    ensures DuracionValida("1 hora")
  {
    assert "1 hora"[2..] == "hora";
    AceptaConParticion("1 hora", 1, 2);
  }

  lemma EjemploDuracionSinEspacio()
    ensures DuracionValida("45minutos")
  {
    assert "45minutos"[2..] == "minutos";
    AceptaConParticion("45minutos", 2, 2);
  }

  lemma EjemploDuracionVariosEspacios()
    ensures DuracionValida("2  horas")
  {
    assert "2  horas"[3..] == "horas";
    AceptaConParticion("2  horas", 1, 3);
  }

  lemma EjemplosDuracionSinDigito()
    ensures !DuracionValida("min")
    ensures !DuracionValida(" 30 min")
    ensures !DuracionValida("")
  {
    PrefijoUnico("min", Digito, 0);
    PrefijoUnico(" 30 min", Digito, 0);
  }

  lemma EjemploDuracionOtraUnidad()
    ensures !DuracionValida("30 seg")
  {
    PrefijoUnico("30 seg", Digito, 2);
    PrefijoUnico("30 seg"[2..], Espacio, 1);
    assert "30 seg"[3..] == "seg";
  }

  lemma EjemploDuracionEspacioFinal()
    ensures !DuracionValida("30 min ")
  {
    PrefijoUnico("30 min ", Digito, 2);
    PrefijoUnico("30 min "[2..], Espacio, 1);
    assert "30 min "[3..] == "min ";
  }

  /** The duration of a service: @NotBlank, then the pattern. */
  predicate DuracionServicioValida(duracion: Option<string>) {
    NoEnBlanco(duracion) && DuracionValida(duracion.value)
  }

  /** ServicioDTO: the name and duration constraints. A valid body has a
      name and a duration, and the duration matches the pattern. */
  function ServicioValido(nombre: Option<string>, duracion: Option<string>): (b: bool)
    ensures b <==> NombreServicioValido(nombre) && duracion.Some? && CoincidePatronDuracion(duracion.value)
  {
    if duracion.None? then false
    else
      DuracionNoEnBlanco(duracion.value);
      DuracionValidaSiiPatron(duracion.value);
      NombreServicioValido(nombre) && DuracionServicioValida(duracion)
  }

  /** Every string the duration pattern matches is also not blank, so on a
      present duration @NotBlank adds nothing to the pattern. */
  lemma DuracionNoEnBlanco(s: string)
    ensures DuracionServicioValida(Some(s)) <==> DuracionValida(s)
  {
    if DuracionValida(s) {
      assert Digito(s[0]);
    }
  }

  // ---------------------------------------------------------------------------
  // The password rule: @Size(8, 100) and
  // @Pattern("^(?=.*[0-9])(?=.*[a-z])(?=.*[A-Z])(?=.*[@#$%^&+=]).*$")

  predicate Minuscula(c: char) {
    'a' <= c <= 'z'
  }

  predicate Mayuscula(c: char) {
    'A' <= c <= 'Z'
  }

  predicate Especial(c: char) {
    c in "@#$%^&+="
  }

  /** The line terminators a Java '.' does not match. */
  predicate FinDeLinea(c: char) {
    c == '\n' || c == '\r' || c == '\U{0085}' || c == '\U{2028}' || c == '\U{2029}'
  }

  /** Some character of s satisfies p. */
  function ContieneAlguno(s: string, p: char -> bool): (b: bool)
    ensures !b <==> forall i | 0 <= i < |s| :: !p(s[i])
  {
    if s == [] then false
    else
      assert forall i | 1 <= i < |s| :: s[i] == s[1..][i - 1];
      p(s[0]) || ContieneAlguno(s[1..], p)
  }

  /** The password pattern: '.*' spans the whole string, so no line terminator
      may occur, and the four look-aheads each need one character of their class. */
  predicate PatronPassword(s: string) {
    !ContieneAlguno(s, FinDeLinea) &&
    ContieneAlguno(s, Digito) && ContieneAlguno(s, Minuscula) &&
    ContieneAlguno(s, Mayuscula) && ContieneAlguno(s, Especial)
  }

  /** The password strength rule shared by registration and password change.
      @NotBlank adds nothing to it: the pattern already asks for a digit. */
  function PasswordFuerte(password: Option<string>): (b: bool)
    ensures b <==> password.Some? && 8 <= |password.value| <= 100 && PatronPassword(password.value)
  {
    NoEnBlanco(password) && LongitudEntre(password, 8, 100) && PatronPassword(password.value)
  }

  /** A strong password is 8 to 100 characters long and holds a digit, a
      lower-case letter, an upper-case letter and one of @#$%^&+=. */
  lemma PasswordFuerteContiene(p: string)
    requires PasswordFuerte(Some(p))
    ensures 8 <= |p| <= 100
    ensures exists i | 0 <= i < |p| :: Digito(p[i])
    ensures exists i | 0 <= i < |p| :: Minuscula(p[i])
    ensures exists i | 0 <= i < |p| :: Mayuscula(p[i])
    ensures exists i | 0 <= i < |p| :: Especial(p[i])
  {
  }

  lemma EjemploPasswordAceptado()
    ensures PasswordFuerte(Some("Barber1@"))
  {
    var p := "Barber1@";
    assert Mayuscula(p[0]) && Minuscula(p[1]) && Digito(p[6]) && Especial(p[7]) && !Recortable(p[0]);
  }

  lemma EjemplosPasswordRechazados()
    ensures !PasswordFuerte(Some("barber1@"))
    ensures !PasswordFuerte(Some("Bar1@"))
    ensures !PasswordFuerte(Some("Barber1@\n"))
    ensures !PasswordFuerte(None)
  {
    var p := "barber1@";
    assert forall i | 0 <= i < |p| :: !Mayuscula(p[i]);
    var q := "Barber1@\n";
    assert FinDeLinea(q[8]);
  }

  // ---------------------------------------------------------------------------
  // The user request bodies

  /** RegistroDTO: name, email and password are required, the email has no
      length limit here, and the phone number may be absent. */
  function RegistroValido(nombre: Option<string>, email: Option<string>, password: Option<string>,
                          telefono: Option<string>): (b: bool)
    ensures b <==> nombre.Some? && |Recortar(nombre.value)| > 0 && 3 <= |nombre.value| <= 255 &&
                   email.Some? && |Recortar(email.value)| > 0 &&
                   password.Some? && 8 <= |password.value| <= 100 && PatronPassword(password.value) &&
                   (telefono.Some? ==>
                      7 <= |telefono.value| <= 20 && forall i | 0 <= i < |telefono.value| :: Digito(telefono.value[i]))
  {
    if email.None? then false
    else
      NoEnBlancoSiiRecorteNoVacio(email.value);
      NombreUsuarioValido(nombre) && NoEnBlanco(email) && PasswordFuerte(password) && TelefonoValido(telefono)
  }

  /** ActualizarPerfilDTO: the name is required, the phone number may be absent. */
  function ActualizarPerfilValido(nombre: Option<string>, telefono: Option<string>): (b: bool)
    ensures b <==> nombre.Some? && |Recortar(nombre.value)| > 0 && 3 <= |nombre.value| <= 255 &&
                   (telefono.Some? ==>
                      7 <= |telefono.value| <= 20 && forall i | 0 <= i < |telefono.value| :: Digito(telefono.value[i]))
  {
    NombreUsuarioValido(nombre) && TelefonoValido(telefono)
  }

  /** CambiarPasswordDTO: the current password is not blank and the new one
      follows the registration rule. */
  function CambioPasswordValido(passwordActual: Option<string>, passwordNueva: Option<string>): (b: bool)
    ensures b <==> passwordActual.Some? && |Recortar(passwordActual.value)| > 0 &&
                   passwordNueva.Some? && 8 <= |passwordNueva.value| <= 100 && PatronPassword(passwordNueva.value)
  {
    if passwordActual.None? then false
    else
      NoEnBlancoSiiRecorteNoVacio(passwordActual.value);
      NoEnBlanco(passwordActual) && PasswordFuerte(passwordNueva)
  }

  /** A password accepted at registration is accepted as a new password, and
      the other way round. */
  lemma MismaReglaDePassword(nombre: Option<string>, email: Option<string>, telefono: Option<string>,
                             actual: Option<string>, p: Option<string>)
    requires NombreUsuarioValido(nombre) && NoEnBlanco(email) && TelefonoValido(telefono) && NoEnBlanco(actual)
    ensures RegistroValido(nombre, email, p, telefono) <==> CambioPasswordValido(actual, p)
  {
  }
}
