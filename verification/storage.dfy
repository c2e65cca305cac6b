/** The work directory and the files the core keeps in it (the identity store
    and the certificate artifacts). The directory and the account-key and
    order-uri file names are configuration whose values are not part of this
    model, so they are carried in a `Layout`. */
module Storage {

  /** Suffixes of the certificate artifacts (FreeCertConsts). */
  const CertPemName: string := ".chain.pem"
  const CertPemPrivateKeyName: string := ".key.pem"
  const CertPfxName: string := ".pfx"
  const CertPfxPasswordName: string := ".pfx.pass"

  /** FreeCertConsts.WorkDir, AccountKeyName and OrderUriName. */
  datatype Layout = Layout(workDir: string, accountKeyName: string, orderUriName: string)

  /** The local file system: the directories that exist and the text of every file. */
  datatype Disk = Disk(dirs: set<string>, files: map<string, string>)

  function InWorkDir(workDir: string, name: string): string
  {
    workDir + "/" + name
  }

  function AccountKeyPath(layout: Layout): string
  {
    InWorkDir(layout.workDir, layout.accountKeyName)
  }

  function OrderUriPath(layout: Layout): string
  {
    InWorkDir(layout.workDir, layout.orderUriName)
  }

  /** Private key of the certificate request: `<top>-` followed by its suffix. */
  function PrivateKeyPath(workDir: string, top: string): string
  {
    InWorkDir(workDir, top + "-" + CertPemPrivateKeyName)
  }

  /** Downloaded chain: `<top>-` followed by its suffix. */
  function ChainPath(workDir: string, top: string): string
  {
    InWorkDir(workDir, top + "-" + CertPemName)
  }

  /** PKCS#12 archive: `<top>` followed directly by its suffix. */
  function PfxPath(workDir: string, top: string): string
  {
    InWorkDir(workDir, top + CertPfxName)
  }

  /** Archive password: `<top>` followed directly by its suffix. */
  function PasswordPath(workDir: string, top: string): string
  {
    InWorkDir(workDir, top + CertPfxPasswordName)
  }

  /** The four artifacts of one top domain never overwrite each other, and the
      ones with a dash are exactly the two PEM files. */
  lemma ArtifactPathsDistinct(workDir: string, top: string)
    ensures |{PrivateKeyPath(workDir, top), ChainPath(workDir, top), PfxPath(workDir, top), PasswordPath(workDir, top)}| == 4
    ensures var base := workDir + "/" + top;
      && PrivateKeyPath(workDir, top) == base + "-.key.pem"
      && ChainPath(workDir, top) == base + "-.chain.pem"
      && PfxPath(workDir, top) == base + ".pfx"
      && PasswordPath(workDir, top) == base + ".pfx.pass"
  {
    var base := workDir + "/" + top;
    var key, chain, pfx, pass := PrivateKeyPath(workDir, top), ChainPath(workDir, top), PfxPath(workDir, top), PasswordPath(workDir, top);
    assert key == base + "-.key.pem";
    assert chain == base + "-.chain.pem";
    assert pfx == base + ".pfx";
    assert pass == base + ".pfx.pass";
    var b := |base|;
    assert key[b] == '-' && chain[b] == '-' && pfx[b] == '.' && pass[b] == '.';
    assert key[b + 2] == 'k' && chain[b + 2] == 'c';
    assert |pfx| != |pass|;
    assert key != pfx && key != pass && chain != pfx && chain != pass;
    assert key != chain;
  }
}
