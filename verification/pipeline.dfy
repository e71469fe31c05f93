/** The orchestration in `main`, `buildDockerImage` and `pushToRegistry`:
    create the client, archive, build, push, stopping at the first failure. Every
    engine and library call is an abstract outcome; the model records which
    calls were made, with what arguments, and what was echoed. */
module Pipeline {
  import opened Errors
  import opened Progress
  import ImageRef

  /** The seven environment variables the program reads. */
  datatype Env = Env(
    dockerFileName: string,    // INPUT_DOCKER_FILE_NAME
    appRootPath: string,       // app_root_path
    imageName: string,         // image_name
    imageTag: string,          // image_tag
    registry: string,          // registry
    registryUsername: string,  // registry_username
    registryPassword: string)  // registry_password

  /** The credentials attached to the push (sent JSON- and base64url-encoded). */
  datatype AuthConfig = AuthConfig(username: string, password: string, serverAddress: string)

  /** A call into the engine client or the archiver. */
  datatype Request =
    | NewClient                                                // client.NewClientWithOpts
    | Tar(dir: string)                                         // archive.TarWithOptions
    | ImageBuild(dockerfile: string, tags: seq<string>, remove: bool)
    | ImagePush(image: string, auth: AuthConfig)

  /** What a build or push call returned: a response body, or an error. */
  datatype Reply = Body(stream: Stream) | Refused(err: Error)

  /** The outcome of each call, fixed in advance: every call is made at most
      once per run. `None` is a nil error. */
  datatype Engine = Engine(client: Option<Error>, tar: Option<Error>, build: Reply, push: Reply)

  /** What one step did: the calls it made in order, the lines it echoed,
      and the error it returned. */
  datatype Effect = Effect(requests: seq<Request>, echoed: seq<string>, err: Option<Error>)

  /** How `main` ends: normally, after printing an error message, or in a
      run-time panic. */
  datatype Exit = Completed | Printed(message: string) | NilDereference

  /** What a whole run did. */
  datatype Run = Run(requests: seq<Request>, echoed: seq<string>, exit: Exit)

  /** The `IMAGE` reference built in `main`. */
  function Image(env: Env): string
  {
    ImageRef.Reference(env.registryUsername, env.imageName, env.imageTag)
  }

  /** The one build call a run can make: the Dockerfile, `IMAGE` as the only
      tag, intermediate containers removed. */
  function BuildRequest(env: Env): Request
  {
    ImageBuild(env.dockerFileName, [Image(env)], true)
  }

  /** The one push call a run can make: `IMAGE`, with the registry address
      only in the credentials. */
  function PushRequest(env: Env): Request
  {
    ImagePush(Image(env), AuthConfig(env.registryUsername, env.registryPassword, env.registry))
  }

  /** `buildDockerImage`: archive the directory, submit the build, read the
      response. Succeeds exactly when all three do; the build is submitted
      only after a successful archive, tagged with the one reference. The
      first ensures is the exact list of calls; the two after it are its
      corollaries, spelled out for callers that only ask about membership. */
  function BuildDockerImage(engine: Engine, unmarshal: Unmarshal, appRootPath: string,
                            dockerFileName: string, image: string): (r: Effect)
    ensures r.requests == [Tar(appRootPath)] + (if engine.tar == None then [ImageBuild(dockerFileName, [image], true)] else [])
    ensures ImageBuild(dockerFileName, [image], true) in r.requests <==> engine.tar == None
    ensures forall q :: q in r.requests ==> q == Tar(appRootPath) || q == ImageBuild(dockerFileName, [image], true)
    ensures r.err == None <==>
              engine.tar == None && engine.build.Body? && PrintResponse(unmarshal, engine.build.stream).err == None
    ensures engine.tar.Some? ==> r.err == engine.tar && r.echoed == []
    ensures engine.tar == None && engine.build.Refused? ==> r.err == Some(engine.build.err) && r.echoed == []
    ensures engine.tar == None && engine.build.Body? ==> r.err == PrintResponse(unmarshal, engine.build.stream).err
    ensures engine.tar == None && engine.build.Body? ==> r.echoed == engine.build.stream.lines
  {
    match engine.tar
    case Some(e) => Effect([Tar(appRootPath)], [], Some(e))
    case None =>
      var requests := [Tar(appRootPath), ImageBuild(dockerFileName, [image], true)];
      match engine.build
      case Refused(e) => Effect(requests, [], Some(e))
      case Body(stream) =>
        var response := PrintResponse(unmarshal, stream);
        Effect(requests, response.echoed, response.err)
  }

  /** `pushToRegistry`: submit the push with the credentials and read the
      response. Fails only when the push call itself fails: the reader's
      verdict on the response is dropped. */
  function PushToRegistry(engine: Engine, unmarshal: Unmarshal, registry: string, username: string,
                          password: string, image: string): (r: Effect)
    ensures r.requests == [ImagePush(image, AuthConfig(username, password, registry))]
    ensures r.err.Some? <==> engine.push.Refused?
    ensures engine.push.Refused? ==> r.err == Some(engine.push.err) && r.echoed == []
    ensures engine.push.Body? ==> r.echoed == engine.push.stream.lines
  {
    var requests := [ImagePush(image, AuthConfig(username, password, registry))];
    match engine.push
    case Refused(e) => Effect(requests, [], Some(e))
    case Body(stream) =>
      var response := PrintResponse(unmarshal, stream);
      Effect(requests, response.echoed, None)   // response.err is never looked at
  }

  /** `main` as written. After a build or push failure it prints the message
      of the client-creation error `err`, which is nil at that point, so the
      program panics instead of reporting the failure. */
  function Main(env: Env, engine: Engine, unmarshal: Unmarshal): (r: Run)
    ensures |r.requests| > 0 && r.requests[0] == NewClient
    ensures engine.client.Some? ==> r.requests == [NewClient] && r.exit == Printed(Message(engine.client.value))
    ensures r.exit == Completed <==>
              && engine.client == None
              && BuildDockerImage(engine, unmarshal, env.appRootPath, env.dockerFileName, Image(env)).err == None
              && engine.push.Body?
    ensures engine.client == None ==> r.exit == Completed || r.exit == NilDereference
    ensures engine.client.Some? ==> r.echoed == []
    ensures engine.client == None ==>
              var build := BuildDockerImage(engine, unmarshal, env.appRootPath, env.dockerFileName, Image(env));
              build.err.Some? ==> r.echoed == build.echoed
  {
    var image := Image(env);
    match engine.client
    case Some(e) => Run([NewClient], [], Printed(Message(e)))
    case None =>
      var build := BuildDockerImage(engine, unmarshal, env.appRootPath, env.dockerFileName, image);
      if build.err.Some? then
        Run([NewClient] + build.requests, build.echoed, NilDereference)
      else
        var push := PushToRegistry(engine, unmarshal, env.registry, env.registryUsername, env.registryPassword, image);
        Run([NewClient] + build.requests + push.requests, build.echoed + push.echoed,
            if push.err.Some? then NilDereference else Completed)
  }

  /** The calls of a run, in order: the client, then the archiver, then the
      build if archiving succeeded, then the push if the build succeeded. */
  lemma MainTrace(env: Env, engine: Engine, unmarshal: Unmarshal)
    ensures engine.client == None && engine.tar.Some? ==>
              Main(env, engine, unmarshal).requests == [NewClient, Tar(env.appRootPath)]
    ensures engine.client == None && engine.tar == None ==>
              Main(env, engine, unmarshal).requests == [NewClient, Tar(env.appRootPath), BuildRequest(env)] +
                (if BuildDockerImage(engine, unmarshal, env.appRootPath, env.dockerFileName, Image(env)).err == None
                 then [PushRequest(env)] else [])
  {
    if engine.client == None && engine.tar == None {
      var build := BuildDockerImage(engine, unmarshal, env.appRootPath, env.dockerFileName, Image(env));
      var built := [NewClient] + build.requests;
      assert built == [NewClient, Tar(env.appRootPath), BuildRequest(env)];
      if build.err == None {
        var push := PushToRegistry(engine, unmarshal, env.registry, env.registryUsername,
                                   env.registryPassword, Image(env));
        assert Main(env, engine, unmarshal).requests == built + push.requests;
        assert push.requests == [PushRequest(env)];
      } else {
        assert Main(env, engine, unmarshal).requests == built;
      }
    }
  }

  /** The build is attempted exactly when client creation and archiving
      succeed, and the push exactly when client creation and the build succeed. */
  lemma AttemptedCalls(env: Env, engine: Engine, unmarshal: Unmarshal)
    ensures BuildRequest(env) in Main(env, engine, unmarshal).requests <==>
              engine.client == None && engine.tar == None
    ensures PushRequest(env) in Main(env, engine, unmarshal).requests <==>
              engine.client == None && BuildDockerImage(engine, unmarshal, env.appRootPath, env.dockerFileName, Image(env)).err == None
  {
    MainTrace(env, engine, unmarshal);
  }

  /** A run calls nothing but the client, the archiver on `app_root_path`,
      the one build and the one push, and each at most once. */
  lemma OnlyExpectedCalls(env: Env, engine: Engine, unmarshal: Unmarshal)
    ensures forall q :: q in Main(env, engine, unmarshal).requests ==>
              q == NewClient || q == Tar(env.appRootPath) || q == BuildRequest(env) || q == PushRequest(env)
    ensures forall i, j :: 0 <= i < j < |Main(env, engine, unmarshal).requests| ==>
              Main(env, engine, unmarshal).requests[i] != Main(env, engine, unmarshal).requests[j]
  {
    var n := TracePrefix(env, engine, unmarshal);
    PrefixOfDistinct(Calls(env), n);
  }

  /** The four calls a run can make, in the order it makes them. */
  function Calls(env: Env): (r: seq<Request>)
    ensures forall i, j :: 0 <= i < j < |r| ==> r[i] != r[j]
  {
    [NewClient, Tar(env.appRootPath), BuildRequest(env), PushRequest(env)]
  }

  /** Every run's calls are a prefix of `Calls`. */
  lemma TracePrefix(env: Env, engine: Engine, unmarshal: Unmarshal) returns (n: nat)
    ensures n <= |Calls(env)| && Main(env, engine, unmarshal).requests == Calls(env)[..n]
  {
    if engine.client.Some? {
      n := 1;
    } else if engine.tar.Some? {
      n := 2;
      MainTrace(env, engine, unmarshal);
    } else if BuildDockerImage(engine, unmarshal, env.appRootPath, env.dockerFileName, Image(env)).err == None {
      n := 4;
      MainTrace(env, engine, unmarshal);
    } else {
      n := 3;
      MainTrace(env, engine, unmarshal);
    }
  }

  /** A prefix of a sequence of pairwise different calls has only calls
      from that sequence, and no call twice. */
  lemma PrefixOfDistinct(all: seq<Request>, n: nat)
    requires n <= |all|
    requires forall i, j :: 0 <= i < j < |all| ==> all[i] != all[j]
    ensures forall q :: q in all[..n] ==> q in all
    ensures forall i, j :: 0 <= i < j < n ==> all[..n][i] != all[..n][j]
  {
  }

  /** The push names the reference that the build tags, and that reference
      does not depend on the registry address, which reaches the push only
      through the credentials. */
  lemma PushNamesBuiltImage(env: Env)
    ensures PushRequest(env).image == BuildRequest(env).tags[0]
    ensures PushRequest(env).auth.serverAddress == env.registry
    ensures forall registry :: Image(env.(registry := registry)) == Image(env)
  {
  }

  /** For a user name without `/` and a tag without `:`, the pushed
      reference reads back as user name, image name and tag. */
  lemma PushTargetIsBuiltReference(env: Env)
    requires '/' !in env.registryUsername && ':' !in env.imageTag
    ensures ImageRef.Parse(PushRequest(env).image)
         == Some(ImageRef.Parts(env.registryUsername, env.imageName, env.imageTag))
  {
    ImageRef.ParseReference(env.registryUsername, env.imageName, env.imageTag);
  }

  /** An error record on the last line of the build output stops the run
      before the push. */
  lemma BuildSignalStopsRun(env: Env, engine: Engine, unmarshal: Unmarshal)
    requires engine.client == None && engine.tar == None && engine.build.Body?
    requires ErrorField(unmarshal, LastLine(engine.build.stream.lines)) != ""
    ensures PushRequest(env) !in Main(env, engine, unmarshal).requests
    ensures Main(env, engine, unmarshal).echoed == engine.build.stream.lines
  {
    assert BuildDockerImage(engine, unmarshal, env.appRootPath, env.dockerFileName, Image(env)).err.Some?;
    AttemptedCalls(env, engine, unmarshal);
  }

  /** A run that gets through both steps echoes the build output, then the
      push output, each line once and in order. */
  lemma EchoOrder(env: Env, engine: Engine, unmarshal: Unmarshal)
    requires engine.client == None && engine.tar == None
    requires engine.build.Body? && PrintResponse(unmarshal, engine.build.stream).err == None
    requires engine.push.Body?
    ensures Main(env, engine, unmarshal).echoed == engine.build.stream.lines + engine.push.stream.lines
  {
  }

  /** The push step with the reader's verdict returned, as the build step
      does: it fails when the call fails or the response ends in an error. */
  function PushToRegistryChecked(engine: Engine, unmarshal: Unmarshal, registry: string, username: string,
                                 password: string, image: string): (r: Effect)
    ensures r.requests == [ImagePush(image, AuthConfig(username, password, registry))]
    ensures r.err == None <==> engine.push.Body? && PrintResponse(unmarshal, engine.push.stream).err == None
    ensures engine.push.Refused? ==> r.err == Some(engine.push.err) && r.echoed == []
    ensures engine.push.Body? ==> r.err == PrintResponse(unmarshal, engine.push.stream).err
    ensures engine.push.Body? ==> r.echoed == engine.push.stream.lines
  {
    var requests := [ImagePush(image, AuthConfig(username, password, registry))];
    match engine.push
    case Refused(e) => Effect(requests, [], Some(e))
    case Body(stream) =>
      var response := PrintResponse(unmarshal, stream);
      Effect(requests, response.echoed, response.err)
  }

  /** `main` with each failure reported by its own error and the checked
      push: it never panics, it completes exactly when every step succeeds,
      and it makes the same calls as `Main`. */
  function MainCorrected(env: Env, engine: Engine, unmarshal: Unmarshal): (r: Run)
    ensures r.requests == Main(env, engine, unmarshal).requests
    ensures r.exit != NilDereference
    ensures r.exit == Completed <==>
              && engine.client == None
              && BuildDockerImage(engine, unmarshal, env.appRootPath, env.dockerFileName, Image(env)).err == None
              && PushToRegistryChecked(engine, unmarshal, env.registry, env.registryUsername,
                                       env.registryPassword, Image(env)).err == None
    ensures engine.client == None ==>
              var build := BuildDockerImage(engine, unmarshal, env.appRootPath, env.dockerFileName, Image(env));
              build.err.Some? ==> r.exit == Printed(Message(build.err.value))
    ensures engine.client == None ==>
              var build := BuildDockerImage(engine, unmarshal, env.appRootPath, env.dockerFileName, Image(env));
              var push := PushToRegistryChecked(engine, unmarshal, env.registry, env.registryUsername,
                                                env.registryPassword, Image(env));
              build.err == None && push.err.Some? ==> r.exit == Printed(Message(push.err.value))
  {
    var image := Image(env);
    match engine.client
    case Some(e) => Run([NewClient], [], Printed(Message(e)))
    case None =>
      var build := BuildDockerImage(engine, unmarshal, env.appRootPath, env.dockerFileName, image);
      if build.err.Some? then
        Run([NewClient] + build.requests, build.echoed, Printed(Message(build.err.value)))
      else
        var push := PushToRegistryChecked(engine, unmarshal, env.registry, env.registryUsername,
                                          env.registryPassword, image);
        Run([NewClient] + build.requests + push.requests, build.echoed + push.echoed,
            if push.err.Some? then Printed(Message(push.err.value)) else Completed)
  }

  /** A failed build makes `main` as written dereference the nil `err`,
      where the corrected `main` prints the build error. */
  lemma FailedBuildPanics(env: Env, engine: Engine, unmarshal: Unmarshal)
    requires engine.client == None
    requires BuildDockerImage(engine, unmarshal, env.appRootPath, env.dockerFileName, Image(env)).err.Some?
    ensures Main(env, engine, unmarshal).exit == NilDereference
    ensures MainCorrected(env, engine, unmarshal).exit
         == Printed(Message(BuildDockerImage(engine, unmarshal, env.appRootPath, env.dockerFileName, Image(env)).err.value))
  {
  }

  /** A refused push makes `main` as written dereference the nil `err`,
      where the corrected `main` prints the push error. */
  lemma FailedPushPanics(env: Env, engine: Engine, unmarshal: Unmarshal)
    requires engine.client == None && engine.tar == None
    requires engine.build.Body? && PrintResponse(unmarshal, engine.build.stream).err == None
    requires engine.push.Refused?
    ensures Main(env, engine, unmarshal).exit == NilDereference
    ensures MainCorrected(env, engine, unmarshal).exit == Printed(Message(engine.push.err))
  {
  }

  /** A concrete run: the build output ends in an error record, and `main`
      as written panics after the build instead of printing the record's
      text. */
  lemma BuildSignalExample(unmarshal: Unmarshal)
    requires unmarshal("{\"error\":\"denied\",\"errorDetail\":{\"message\":\"denied\"}}")
          == Some(ErrorLine("denied", ErrorDetail("denied")))
    ensures var record := "{\"error\":\"denied\",\"errorDetail\":{\"message\":\"denied\"}}";
            var env := Env("Dockerfile", ".", "app", "v1", "registry.example", "alice", "secret");
            var engine := Engine(None, None, Body(Stream(["Step 1/1 : FROM scratch", record], None)),
                                 Refused(Foreign("unused")));
            && Main(env, engine, unmarshal)
               == Run([NewClient, Tar("."), BuildRequest(env)], ["Step 1/1 : FROM scratch", record], NilDereference)
            && MainCorrected(env, engine, unmarshal).exit == Printed("denied")
  {
    var record := "{\"error\":\"denied\",\"errorDetail\":{\"message\":\"denied\"}}";
    var lines := ["Step 1/1 : FROM scratch", record];
    var env := Env("Dockerfile", ".", "app", "v1", "registry.example", "alice", "secret");
    var engine := Engine(None, None, Body(Stream(lines, None)), Refused(Foreign("unused")));
    assert ErrorField(unmarshal, LastLine(lines)) == "denied";
    assert PrintResponse(unmarshal, engine.build.stream).err == Some(Signalled("denied"));
    assert BuildDockerImage(engine, unmarshal, ".", "Dockerfile", Image(env)).err == Some(Signalled("denied"));
  }

  /** A concrete run: the archiver fails, and `main` as written panics
      instead of printing the archiver's message. */
  lemma ArchiveFailureExample(unmarshal: Unmarshal)
    ensures var env := Env("Dockerfile", "missing-dir", "app", "v1", "registry.example", "alice", "secret");
            var engine := Engine(None, Some(Foreign("no such directory")), Refused(Foreign("unused")),
                                 Refused(Foreign("unused")));
            && Main(env, engine, unmarshal) == Run([NewClient, Tar("missing-dir")], [], NilDereference)
            && MainCorrected(env, engine, unmarshal).exit == Printed("no such directory")
  {
  }

  /** An error record ending the push output is dropped by the push step as
      written and returned, with its text, by the checked one. */
  lemma PushSignalDropped(engine: Engine, unmarshal: Unmarshal, registry: string, username: string,
                          password: string, image: string)
    requires engine.push.Body?
    requires ErrorField(unmarshal, LastLine(engine.push.stream.lines)) != ""
    ensures PushToRegistry(engine, unmarshal, registry, username, password, image).err == None
    ensures PushToRegistryChecked(engine, unmarshal, registry, username, password, image).err
         == Some(Signalled(ErrorField(unmarshal, LastLine(engine.push.stream.lines))))
  {
  }
}
