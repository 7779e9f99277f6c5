/** What the entrypoint secret is read as: which secrets are accepted and in which mode, and which edits name another
    Registration. */
module Extraction {
  import opened Wrappers
  import opened Finalizers
  import opened Ownership
  import opened Cluster
  import opened Entrypoint
  import opened Orphans
  import opened HashLabels

  // ----- which secrets are accepted

  /** Accepted are offline secrets, and those with a registration code whose type is online, empty or not given. */
  lemma AcceptedExactly(s: Secret, a: Answers)
    ensures Extract(s, a).Some? <==>
              (REGISTRATION_TYPE in s.data && s.data[REGISTRATION_TYPE] == "offline") ||
              ((REGISTRATION_TYPE !in s.data || s.data[REGISTRATION_TYPE] == "" || s.data[REGISTRATION_TYPE] == "online") &&
               REGISTRATION_CODE in s.data && s.data[REGISTRATION_CODE] != "")
  {
  }

  /** The mode is offline exactly if the type says so, and the certificate counts exactly if there is something in it. */
  lemma TheModeIsOnlineUnlessSaid(s: Secret, a: Answers)
    requires Extract(s, a).Some?
    ensures var p := Extract(s, a).value;
            && p.mode == (if REGISTRATION_TYPE in s.data && s.data[REGISTRATION_TYPE] == "offline" then "offline" else "online")
            && (p.hasCertificate <==> CERTIFICATE in s.data && s.data[CERTIFICATE] != "")
            && p.managedBy == a.operator
  {
  }

  // ----- which edits name another Registration

  /** Different texts have different digests. */
  ghost predicate Injective(a: Answers) {
    forall x, y :: a.hash(x) == a.hash(y) ==> x == y
  }

  lemma AffixesCancel(before: string, x: string, y: string, after: string)
    ensures before + x + after == before + y + after <==> x == y
  {
    if before + x + after == before + y + after {
      assert |x| == |y|;
      assert x == (before + x + after)[|before|..|before| + |x|];
      assert y == (before + y + after)[|before|..|before| + |y|];
    }
  }

  lemma FrontCancels(x: string, y: string, kind: string, code: string, url: string)
    ensures x + kind + code + url == y + kind + code + url <==> x == y
  {
    assert x + kind + code + url == "" + x + (kind + code + url) && y + kind + code + url == "" + y + (kind + code + url);
    AffixesCancel("", x, y, kind + code + url);
  }

  predicate SameName(s: Secret, t: Secret, a: Answers)
    requires Extract(s, a).Some? && Extract(t, a).Some?
  {
    Extract(s, a).value.nameId == Extract(t, a).value.nameId
  }

  lemma NamesAreTheData(s: Secret, t: Secret, a: Answers)
    requires Injective(a) && Extract(s, a).Some? && Extract(t, a).Some?
    ensures SameName(s, t, a) <==> NameData(s, Extract(s, a).value.mode, a) == NameData(t, Extract(t, a).value.mode, a)
  {
  }

  /** A new salt is accepted like the old one, and names another Registration. */
  lemma {:induction false} ANewSaltIsANewName(s: Secret, salt: string, a: Answers)
    requires Injective(a) && Extract(s, a).Some? && salt != Value(s.labels, OBJECT_SALT)
    ensures var t := s.(labels := s.labels[OBJECT_SALT := salt]); Extract(t, a).Some? && !SameName(s, t, a)
  {
    var t := s.(labels := s.labels[OBJECT_SALT := salt]);
    NamesAreTheData(s, t, a);
    FrontCancels(Value(s.labels, OBJECT_SALT), salt, Value(s.data, REGISTRATION_TYPE), Value(s.data, REGISTRATION_CODE),
                 RegUrl(s, Extract(s, a).value.mode, a));
  }

  /** A new registration code names another Registration, in both modes. */
  lemma {:induction false} ANewCodeIsANewName(s: Secret, code: string, a: Answers)
    requires var t := s.(data := s.data[REGISTRATION_CODE := code]);
             Injective(a) && Extract(s, a).Some? && Extract(t, a).Some? && code != Value(s.data, REGISTRATION_CODE)
    ensures !SameName(s, s.(data := s.data[REGISTRATION_CODE := code]), a)
  {
    var t := s.(data := s.data[REGISTRATION_CODE := code]);
    NamesAreTheData(s, t, a);
    AffixesCancel(Value(s.labels, OBJECT_SALT) + Value(s.data, REGISTRATION_TYPE), Value(s.data, REGISTRATION_CODE), code,
                  RegUrl(s, Extract(s, a).value.mode, a));
  }

  /** A new URL names another Registration exactly if the mode is online and the URL is not the one in force. */
  lemma {:induction false} ANewUrlIsANewNameOnlineOnly(s: Secret, url: string, a: Answers)
    requires Injective(a) && Extract(s, a).Some?
    ensures var t := s.(data := s.data[REGISTRATION_URL := url]);
            && Extract(t, a).Some?
            && (SameName(s, t, a) <==>
                  Extract(s, a).value.mode == "offline" ||
                  url == if REGISTRATION_URL in s.data then s.data[REGISTRATION_URL] else a.defaultUrl)
            && (Extract(s, a).value.mode == "offline" ==> Extract(t, a) == Extract(s, a))
  {
    var t := s.(data := s.data[REGISTRATION_URL := url]);
    var mode := Extract(s, a).value.mode;
    NamesAreTheData(s, t, a);
    TheModeIsOnlineUnlessSaid(s, a);
    AffixesCancel(Value(s.labels, OBJECT_SALT) + Value(s.data, REGISTRATION_TYPE) + Value(s.data, REGISTRATION_CODE),
                  RegUrl(s, mode, a), RegUrl(t, mode, a), "");
  }

  lemma BackCancels(name: string, x: string, y: string)
    ensures name + (name + x) == name + (name + y) <==> x == y
  {
    assert name + (name + x) == name + name + x + "" && name + (name + y) == name + name + y + "";
    AffixesCancel(name + name, x, y, "");
  }

  /** A new certificate names the same Registration under another content hash, in both modes. */
  lemma {:induction false} ANewCertificateIsTheSameName(s: Secret, certificate: string, a: Answers)
    requires Injective(a) && Extract(s, a).Some? && certificate != Value(s.data, CERTIFICATE)
    ensures var t := s.(data := s.data[CERTIFICATE := certificate]);
            && Extract(t, a).Some? && SameName(s, t, a) && Extract(t, a).value.mode == Extract(s, a).value.mode
            && Extract(t, a).value.contentHash != Extract(s, a).value.contentHash
  {
    var name := NameData(s, Extract(s, a).value.mode, a);
    BackCancels(name, Value(s.data, CERTIFICATE), certificate);
  }

  /** The content digest continues the name digest, so the two differ even without a certificate. */
  lemma TheTwoHashesDiffer(s: Secret, a: Answers)
    requires Injective(a) && Extract(s, a).Some? && (Value(s.labels, OBJECT_SALT) != "" || Value(s.data, REGISTRATION_CODE) != "")
    ensures Extract(s, a).value.nameId != Extract(s, a).value.contentHash
  {
    var name := NameData(s, Extract(s, a).value.mode, a);
    assert |name| > 0 && |name + (name + Value(s.data, CERTIFICATE))| > |name|;
  }

  /** But the texts are joined without a separator: what looks like a type in front of the code can be either. */
  lemma DifferentSecretsShareAName(s: Secret, code: string, a: Answers)
    requires REGISTRATION_TYPE !in s.data && code != ""
    ensures var t := s.(data := s.data[REGISTRATION_TYPE := "online"][REGISTRATION_CODE := code]);
            var u := s.(data := s.data[REGISTRATION_CODE := "online" + code]);
            Extract(t, a).Some? && Extract(u, a).Some? && SameName(t, u, a)
  {
    var t := s.(data := s.data[REGISTRATION_TYPE := ONLINE][REGISTRATION_CODE := code]);
    var u := s.(data := s.data[REGISTRATION_CODE := ONLINE + code]);
    Joined(Value(s.labels, OBJECT_SALT), ONLINE, code, RegUrl(s, ONLINE, a));
  }

  lemma Joined(salt: string, kind: string, code: string, url: string)
    ensures salt + kind + code + url == salt + "" + (kind + code) + url
  {
    assert salt + "" == salt && salt + kind + code == salt + (kind + code);
  }

  /** So an edit of a labelled secret makes the next call clean up under the old name exactly if it is a new name. */
  lemma {:induction false} CleansExactlyWhenRenamed(s: Secret, data: map<string, string>, a: Answers)
    requires !s.deleting && ShouldManage(s.labels, a.operator) && OBJECT_SALT in s.labels && Extract(s, a).Some?
    requires Extract(s.(data := data), a).Some? && Extract(s, a).value.contentHash != ""
    ensures CleansOnChange(Relabel(s, Extract(s, a).value).(data := data), a) <==> !SameName(s, s.(data := data), a)
  {
    var t := Relabel(s, Extract(s, a).value);
    LabellingIsIdempotent(s, Extract(s, a).value);
    LabelsAreReExtracted(s, a);
    ExtractionSeesSaltAndData(t.(data := data), s.(data := data), a);
  }
}
