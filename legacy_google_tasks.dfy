/** The older `GoogleTasksToDoService` snapshot: it chooses its own
    authentication from NODE_ENV and checks TASK_LIST_ID in both branches.
    Its create, get, update, delete and complete operations have the same
    bodies as the current service's and are those of module GoogleTasks. */
module LegacyGoogleTasks {
  import opened Common
  import opened GoogleTasks

  /** Which client the constructor authenticates with. */
  datatype AuthClient = OAuth2Client | ServiceAccountClient

  const TestEnvironment: string := "test"
  const OAuthConfigMissing: string := "OAuth2 client configuration is missing."

  /** What `GoogleOAuth2.getAuthClient` depends on: whether its static
      client already exists, and CLIENT_ID, CLIENT_SECRET and REDIRECT_URI. */
  datatype OAuthEnv = OAuthEnv(initialised: bool, clientId: Option<string>,
                               clientSecret: Option<string>, redirectUri: Option<string>)

  /** `GoogleOAuth2.getAuthClient()`: an existing client is returned as it
      is; otherwise `init` throws unless all three variables are set and
      non-empty. */
  function OAuthClient(oauth: OAuthEnv): (r: Outcome)
    ensures r.Fail? <==> !oauth.initialised && !(Truthy(oauth.clientId) && Truthy(oauth.clientSecret) && Truthy(oauth.redirectUri))
    ensures r.Fail? ==> r.error == OAuthConfigMissing
  {
    if oauth.initialised then Pass
    else if !Truthy(oauth.clientId) || !Truthy(oauth.clientSecret) || !Truthy(oauth.redirectUri) then
      Fail(OAuthConfigMissing)
    else Pass
  }

  /** The constructor's environment check: outside the test environment
      the OAuth2 client is obtained first, and its configuration error
      comes before the TASK_LIST_ID check; in the test environment the
      service account is used. In both branches an unset or empty
      TASK_LIST_ID throws. */
  function ConfigCheck(nodeEnv: Option<string>, envTaskListId: Option<string>, oauth: OAuthEnv): (r: Result<AuthClient>)
    ensures r.Err? <==> (nodeEnv != Some(TestEnvironment) && OAuthClient(oauth).Fail?) || !Truthy(envTaskListId)
    ensures nodeEnv != Some(TestEnvironment) && OAuthClient(oauth).Fail? ==> r == Err(OAuthConfigMissing)
    ensures (nodeEnv == Some(TestEnvironment) || OAuthClient(oauth).Pass?) && !Truthy(envTaskListId) ==>
              r == Err(TaskListIdNotSet)
    ensures r.Ok? ==> (r.value == ServiceAccountClient <==> nodeEnv == Some(TestEnvironment))
  {
    if nodeEnv != Some(TestEnvironment) then
      match OAuthClient(oauth)
      case Fail(e) => Err(e)
      case Pass => if !Truthy(envTaskListId) then Err(TaskListIdNotSet) else Ok(OAuth2Client)
    else
      if !Truthy(envTaskListId) then Err(TaskListIdNotSet) else Ok(ServiceAccountClient)
  }

  class LegacyGoogleTasksToDoService {
    const auth: AuthClient
    const taskListId: string
    /** The remote list the service's `tasks` client reaches. */
    const tasks: TaskList

    constructor (auth: AuthClient, taskListId: string, tasks: TaskList)
      ensures this.auth == auth && this.taskListId == taskListId && this.tasks == tasks
    {
      this.auth := auth;
      this.taskListId := taskListId;
      this.tasks := tasks;
    }
  }

  /** `new GoogleTasksToDoService(taskListId)`: a service exactly when the
      environment check passes, with the client that check chose, and
      otherwise that check's error. */
  method NewLegacyService(nodeEnv: Option<string>, envTaskListId: Option<string>, oauth: OAuthEnv,
                          taskListId: string, tasks: TaskList)
    returns (r: Result<LegacyGoogleTasksToDoService>)
    ensures r.Err? <==> ConfigCheck(nodeEnv, envTaskListId, oauth).Err?
    ensures r.Err? ==> r.error == ConfigCheck(nodeEnv, envTaskListId, oauth).error
    ensures r.Ok? ==> fresh(r.value) && r.value.auth == ConfigCheck(nodeEnv, envTaskListId, oauth).value
                      && r.value.taskListId == taskListId && r.value.tasks == tasks
  {
    var check := ConfigCheck(nodeEnv, envTaskListId, oauth);
    if check.Err? {
      return Err(check.error);
    }
    var service := new LegacyGoogleTasksToDoService(check.value, taskListId, tasks);
    r := Ok(service);
  }
}
